/** `ProductCategoryService`: the links that put products in categories. */
module ProductCategoryService {
  import opened Common
  import opened Entities
  import opened Dtos
  import opened Store
  import ProductCategoryMapper
  import ProductService
  import CategoryService

  const AlreadyLinked := Business("The product is already registered to this category", CONFLICT)

  /** `existsByCategoryIdAndProductId`. */
  predicate Linked(links: map<nat, ProductCategory>, categoryId: nat, productId: nat)
  {
    exists k :: k in links && links[k] == ProductCategory(productId, categoryId)
  }

  /** `existingValidator`: refuses a pair that is already linked. */
  function ExistingValidator(links: map<nat, ProductCategory>, request: ProductCategoryRequest): (r: Outcome)
    ensures r.Pass? <==> !Linked(links, request.categoryId, request.productId)
    ensures r.Fail? ==> r.failure == AlreadyLinked
  {
    if Linked(links, request.categoryId, request.productId) then Fail(AlreadyLinked) else Pass
  }

  /** The response of a stored link, read through its product and category. */
  function LinkResponse(s: State, id: nat): ProductCategoryResponse
    requires id in s.productCategories && LinksReferToStore(s.productCategories, s.products, s.categories)
  {
    var link := s.productCategories[id];
    ProductCategoryMapper.ToResponseDto(link.productId, s.products[link.productId], link.categoryId, s.categories[link.categoryId])
  }

  /** `create`: the pair is checked first, then the product, then the category. */
  method Create(db: Db, request: ProductCategoryRequest) returns (r: Result<ProductCategoryResponse>)
    requires db.Valid()
    modifies db
    ensures db.Valid()
    ensures r.Err? ==> db.Snapshot() == old(db.Snapshot())
    ensures Linked(old(db.productCategories), request.categoryId, request.productId) ==> r == Err(AlreadyLinked)
    ensures !Linked(old(db.productCategories), request.categoryId, request.productId) &&
            request.productId !in old(db.products) ==>
      r == Err(Business("No Product found with the id " + NatToString(request.productId), NOT_FOUND))
    ensures !Linked(old(db.productCategories), request.categoryId, request.productId) &&
            request.productId in old(db.products) && request.categoryId !in old(db.categories) ==>
      r == Err(CategoryService.NotFound(request.categoryId))
    ensures r.Ok? <==>
      !Linked(old(db.productCategories), request.categoryId, request.productId) &&
      request.productId in old(db.products) && request.categoryId in old(db.categories)
    ensures r.Ok? ==>
      db.Snapshot() == old(db.Snapshot()).(
        productCategories := old(db.productCategories)[old(db.nextId) := ProductCategory(request.productId, request.categoryId)],
        nextId := old(db.nextId) + 1) &&
      r.value == LinkResponse(db.Snapshot(), old(db.nextId))
  {
    var check := ExistingValidator(db.productCategories, request);
    if check.Fail? {
      return Err(check.failure);
    }
    var product := ProductService.GetProduct(db.products, request.productId);
    if product.Err? {
      return Err(product.failure);
    }
    var category := CategoryService.GetCategory(db.categories, request.categoryId);
    if category.Err? {
      return Err(category.failure);
    }
    var link := ProductCategoryMapper.ToEntity(request.productId, request.categoryId);
    var id := db.nextId;
    db.productCategories := db.productCategories[id := link];
    db.nextId := db.nextId + 1;
    r := Ok(ProductCategoryMapper.ToResponseDto(request.productId, product.value, request.categoryId, category.value));
  }

  /** `findById`. */
  function FindById(s: State, id: nat): (r: Result<ProductCategoryResponse>)
    requires LinksReferToStore(s.productCategories, s.products, s.categories)
    ensures r.Ok? <==> id in s.productCategories
    ensures r.Ok? ==>
      var link := s.productCategories[id];
      var product := s.products[link.productId];
      var category := s.categories[link.categoryId];
      r.value.productId == link.productId && r.value.categoryId == link.categoryId &&
      r.value.productName == product.name && r.value.productDescription == product.description &&
      r.value.productPrice == product.price && r.value.productStockQuantity == product.stockQuantity &&
      r.value.categoryName == category.name && r.value.categoryDescription == category.description
    ensures r.Err? ==> r.failure == Business("ProductCategory not Found ", NOT_FOUND)
  {
    if id in s.productCategories then Ok(LinkResponse(s, id))
    else Err(Business("ProductCategory not Found ", NOT_FOUND))
  }

  /** `update`: the pair is checked before the link is even looked up, so re-submitting
      a link's own current pair is refused; then the link, the product and the category
      are looked up and both references of the link are overwritten in place. */
  method Update(db: Db, id: nat, request: ProductCategoryRequest) returns (r: Result<ProductCategoryResponse>)
    requires db.Valid()
    modifies db
    ensures db.Valid()
    ensures r.Err? ==> db.Snapshot() == old(db.Snapshot())
    ensures Linked(old(db.productCategories), request.categoryId, request.productId) ==> r == Err(AlreadyLinked)
    ensures id in old(db.productCategories) &&
            old(db.productCategories)[id] == ProductCategory(request.productId, request.categoryId) ==>
      r == Err(AlreadyLinked)
    ensures !Linked(old(db.productCategories), request.categoryId, request.productId) && id !in old(db.productCategories) ==>
      r == Err(Business("ProductCategory not Found", NOT_FOUND))
    ensures r.Ok? <==>
      !Linked(old(db.productCategories), request.categoryId, request.productId) && id in old(db.productCategories) &&
      request.productId in old(db.products) && request.categoryId in old(db.categories)
    ensures r.Ok? ==>
      db.Snapshot() == old(db.Snapshot()).(
        productCategories := old(db.productCategories)[id := ProductCategory(request.productId, request.categoryId)]) &&
      r.value == LinkResponse(db.Snapshot(), id)
  {
    var check := ExistingValidator(db.productCategories, request);
    if check.Fail? {
      return Err(check.failure);
    }
    if id !in db.productCategories {
      return Err(Business("ProductCategory not Found", NOT_FOUND));
    }
    var existing := db.productCategories[id];
    var product := ProductService.GetProduct(db.products, request.productId);
    if product.Err? {
      return Err(product.failure);
    }
    var category := CategoryService.GetCategory(db.categories, request.categoryId);
    if category.Err? {
      return Err(category.failure);
    }
    var updated := ProductCategoryMapper.UpdateEntity(existing, request.productId, request.categoryId);
    db.productCategories := db.productCategories[id := updated];
    r := Ok(ProductCategoryMapper.ToResponseDto(request.productId, product.value, request.categoryId, category.value));
  }

  /** `findAllProductsByCategoryId`: the responses of exactly the links into that
      category, keyed by link id; the category itself is not looked up. */
  function FindAllProductsByCategoryId(s: State, categoryId: nat): (r: map<nat, ProductCategoryResponse>)
    requires LinksReferToStore(s.productCategories, s.products, s.categories)
    ensures forall k :: k in r <==> k in s.productCategories && s.productCategories[k].categoryId == categoryId
    ensures forall k :: k in r ==> r[k] == LinkResponse(s, k) && r[k].categoryId == categoryId
  {
    map k | k in s.productCategories && s.productCategories[k].categoryId == categoryId :: LinkResponse(s, k)
  }

  /** `delete`: removes exactly that link. */
  method Delete(db: Db, id: nat) returns (r: Outcome)
    requires db.Valid()
    modifies db
    ensures db.Valid()
    ensures id !in old(db.productCategories) ==>
      r == Fail(Business("No Product category found with the id " + NatToString(id), NOT_FOUND)) &&
      db.Snapshot() == old(db.Snapshot())
    ensures id in old(db.productCategories) ==>
      r == Pass && db.Snapshot() == old(db.Snapshot()).(productCategories := old(db.productCategories) - {id})
  {
    if id !in db.productCategories {
      return Fail(Business("No Product category found with the id " + NatToString(id), NOT_FOUND));
    }
    db.productCategories := db.productCategories - {id};
    r := Pass;
  }
}
