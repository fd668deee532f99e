/** `ProductService`: the product catalogue. The whole class is transactional, so
    every operation either fails with the database unchanged or takes full effect. */
module ProductService {
  import opened Common
  import opened Entities
  import opened Dtos
  import opened Store
  import ProductMapper

  /** `existsByName`. */
  predicate NameTaken(products: map<nat, Product>, name: string)
  {
    exists id :: id in products && products[id].name == name
  }

  /** A row still pointing at the product: a cart line, a category link or an image.
      The database's foreign keys refuse to delete a product while one exists. */
  predicate Referenced(s: State, id: nat)
  {
    (exists i :: 0 <= i < |s.cartItems| && s.cartItems[i].entity.productId == id) ||
    (exists k :: k in s.productCategories && s.productCategories[k].productId == id) ||
    (exists k :: k in s.images && s.images[k].productId == id)
  }

  function NotFound(id: nat): Failure
  {
    EntityNotFound("No product found with the id " + NatToString(id))
  }

  /** `getProduct`, which the other services call. It is not in ProductService.java;
      modelled as its callers' tests have it: the stored product, or NOT_FOUND. */
  function GetProduct(products: map<nat, Product>, id: nat): (r: Result<Product>)
    ensures r.Ok? <==> id in products
    ensures r.Ok? ==> r.value == products[id]
    ensures r.Err? ==> r.failure == Business("No Product found with the id " + NatToString(id), NOT_FOUND)
  {
    if id in products then Ok(products[id])
    else Err(Business("No Product found with the id " + NatToString(id), NOT_FOUND))
  }

  /** `createProduct`: refused when the name is taken; otherwise the request is stored
      under a fresh id. The source throws BusinessException with the message only; the
      status is CONFLICT, as the product tests assert. */
  method CreateProduct(db: Db, request: ProductRequest) returns (r: Result<ProductResponse>)
    requires db.Valid()
    modifies db
    ensures db.Valid()
    ensures NameTaken(old(db.products), request.name) ==>
      r == Err(Business("Product name already exists", CONFLICT)) && db.Snapshot() == old(db.Snapshot())
    ensures !NameTaken(old(db.products), request.name) ==>
      r == Ok(ProductResponse(old(db.nextId), request.name, request.description, request.price, request.stockQuantity)) &&
      db.Snapshot() == old(db.Snapshot()).(
        products := old(db.products)[old(db.nextId) := Product(request.name, request.description, request.price, request.stockQuantity)],
        nextId := old(db.nextId) + 1)
  {
    if NameTaken(db.products, request.name) {
      return Err(Business("Product name already exists", CONFLICT));
    }
    var product := ProductMapper.ToEntity(request);
    var id := db.nextId;
    db.products := db.products[id := product];
    db.nextId := db.nextId + 1;
    r := Ok(ProductMapper.ToResponseDto(id, product));
  }

  /** `findProductById`. */
  function FindProductById(products: map<nat, Product>, id: nat): (r: Result<ProductResponse>)
    ensures r.Ok? <==> id in products
    ensures r.Ok? ==> r.value == ProductResponse(id, products[id].name, products[id].description, products[id].price, products[id].stockQuantity)
    ensures r.Err? ==> r.failure == NotFound(id)
  {
    if id in products then Ok(ProductMapper.ToResponseDto(id, products[id])) else Err(NotFound(id))
  }

  /** `updateProduct`: all four fields of the stored product are overwritten; there is
      no name-uniqueness check on this path. */
  method UpdateProduct(db: Db, request: ProductRequest, id: nat) returns (r: Result<ProductResponse>)
    requires db.Valid()
    modifies db
    ensures db.Valid()
    ensures id !in old(db.products) ==> r == Err(NotFound(id)) && db.Snapshot() == old(db.Snapshot())
    ensures id in old(db.products) ==>
      r == Ok(ProductResponse(id, request.name, request.description, request.price, request.stockQuantity)) &&
      db.Snapshot() == old(db.Snapshot()).(
        products := old(db.products)[id := Product(request.name, request.description, request.price, request.stockQuantity)])
  {
    if id !in db.products {
      return Err(NotFound(id));
    }
    var updated := ProductMapper.UpdateEntity(db.products[id], request);
    db.products := db.products[id := updated];
    r := Ok(ProductMapper.ToResponseDto(id, updated));
  }

  /** `deleteProduct`: removes exactly that product; the database refuses while a cart
      line, category link or image still refers to it. */
  method DeleteProduct(db: Db, id: nat) returns (r: Outcome)
    requires db.Valid()
    modifies db
    ensures db.Valid()
    ensures id !in old(db.products) ==> r == Fail(NotFound(id)) && db.Snapshot() == old(db.Snapshot())
    ensures id in old(db.products) && Referenced(old(db.Snapshot()), id) ==>
      r == Fail(IntegrityViolation) && db.Snapshot() == old(db.Snapshot())
    ensures id in old(db.products) && !Referenced(old(db.Snapshot()), id) ==>
      r == Pass && db.Snapshot() == old(db.Snapshot()).(products := old(db.products) - {id})
  {
    if id !in db.products {
      return Fail(NotFound(id));
    }
    if Referenced(db.Snapshot(), id) {
      return Fail(IntegrityViolation);
    }
    db.products := db.products - {id};
    r := Pass;
  }

  /** `updateStockQuantity`, which order placement calls. It is not in ProductService.java;
      modelled as its tests have it: the stock drops by exactly the quantity given, with
      no check of its own, and an unknown id saves nothing. */
  method UpdateStockQuantity(db: Db, id: nat, quantity: int) returns (r: Outcome)
    requires db.Valid()
    modifies db
    ensures db.Valid()
    ensures id !in old(db.products) ==>
      r == Fail(Business("No  product found with the id " + NatToString(id), NOT_FOUND)) && db.Snapshot() == old(db.Snapshot())
    ensures id in old(db.products) ==>
      r == Pass && db.Snapshot() == old(db.Snapshot()).(products := Decremented(old(db.products), id, quantity))
  {
    if id !in db.products {
      return Fail(Business("No  product found with the id " + NatToString(id), NOT_FOUND));
    }
    db.products := Decremented(db.products, id, quantity);
    r := Pass;
  }

  /** The products after taking `quantity` units of product `id`. */
  function Decremented(products: map<nat, Product>, id: nat, quantity: int): (r: map<nat, Product>)
    requires id in products
    ensures r.Keys == products.Keys
    ensures r[id].stockQuantity == products[id].stockQuantity - quantity
    ensures r[id] == products[id].(stockQuantity := r[id].stockQuantity)
    ensures forall k :: k in products && k != id ==> r[k] == products[k]
  {
    products[id := products[id].(stockQuantity := products[id].stockQuantity - quantity)]
  }
}
