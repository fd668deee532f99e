/** `OrderService`: turning the caller's cart into an order. */
module OrderService {
  import opened Common
  import opened Entities
  import opened Dtos
  import opened UserModel
  import opened Store
  import OrderMapper
  import ProductService
  import CartItemService

  const UserNotFound := Business("user not found", NOT_FOUND)
  const CartEmpty := Business("Cart is empty", CONFLICT)

  function OutOfStock(productName: string): Failure
  {
    Business("Requested quantity is not avalible anymore!" + "Product: " + productName, CONFLICT)
  }

  /** `findOrderByid`, which payment creation calls. It is not in OrderService.java;
      modelled as its tests have it: the stored order, or NOT_FOUND. */
  function FindOrderById(orders: map<nat, Order>, id: nat): (r: Result<Order>)
    ensures r.Ok? <==> id in orders
    ensures r.Ok? ==> r.value == orders[id]
    ensures r.Err? ==> r.failure == Business("No order found with the id: " + NatToString(id), NOT_FOUND)
  {
    if id in orders then Ok(orders[id]) else Err(Business("No order found with the id: " + NatToString(id), NOT_FOUND))
  }

  /** `getAuthUserOrders`: the caller's orders, keyed by id. */
  function GetAuthUserOrders(s: State, caller: Option<Row<User>>): (r: Result<map<nat, OrderResponse>>)
    requires OrdersReferToUsers(s.orders, s.users)
    ensures r.Err? <==> caller.None?
    ensures r.Err? ==> r.failure == UserNotFound
    ensures r.Ok? ==> forall id :: id in r.value <==> id in s.orders && s.orders[id].userId == caller.value.id
    ensures r.Ok? ==> forall id :: id in r.value ==>
      r.value[id].id == id && r.value[id].status == s.orders[id].status &&
      r.value[id].userEmail == s.users[caller.value.id].email &&
      r.value[id].orderItems == OrderMapper.ToOrderItemsResponseList(s.orders[id].items)
  {
    if caller.None? then Err(UserNotFound)
    else
      Ok(map id | id in s.orders && s.orders[id].userId == caller.value.id ::
           OrderMapper.ToResponseDto(id, s.orders[id], s.users[s.orders[id].userId].email))
  }

  // ---------------------------------------------------------------------------
  // The per-line loop (`createOrderList`), specified by `Place`
  // ---------------------------------------------------------------------------

  /** The order item copied from a cart line and its product. */
  function ItemOf(line: Row<CartItem>, product: Product): OrderItem
  {
    OrderItem(None, line.entity.quantity, product.price, line.entity.productId, product.name)
  }

  predicate ProductsKnown(lines: seq<Row<CartItem>>, products: map<nat, Product>)
  {
    forall l :: l in lines ==> l.entity.productId in products
  }

  /** No two lines are for the same product. */
  predicate DistinctProducts(lines: seq<Row<CartItem>>)
  {
    forall i, j :: 0 <= i < j < |lines| ==> lines[i].entity.productId != lines[j].entity.productId
  }

  /** The line asks for more than its product's stock. */
  predicate Short(products: map<nat, Product>, line: Row<CartItem>)
    requires line.entity.productId in products
  {
    products[line.entity.productId].stockQuantity < line.entity.quantity
  }

  /** The items placed so far and the products with their stock after placement. */
  datatype Placement = Placement(items: seq<OrderItem>, products: map<nat, Product>)

  function Continue(items: seq<OrderItem>, r: Result<Placement>): Result<Placement>
  {
    match r
    case Err(f) => Err(f)
    case Ok(p) => Ok(Placement(items + p.items, p.products))
  }

  /** Placing the lines one by one: check the line against the product's current stock,
      copy it into an order item, take its quantity from the stock, go on with the rest. */
  function Place(products: map<nat, Product>, lines: seq<Row<CartItem>>): (r: Result<Placement>)
    requires ProductsKnown(lines, products)
    ensures r.Ok? ==> r.value.products.Keys == products.Keys
    decreases |lines|
  {
    if lines == [] then Ok(Placement([], products))
    else
      var line := lines[0];
      var product := products[line.entity.productId];
      if product.stockQuantity < line.entity.quantity then Err(OutOfStock(product.name))
      else
        var rest := ProductService.Decremented(products, line.entity.productId, line.entity.quantity);
        assert ProductsKnown(lines[1..], rest) by {
          forall l | l in lines[1..] ensures l.entity.productId in rest { assert l in lines; }
        }
        Continue([ItemOf(line, product)], Place(rest, lines[1..]))
  }

  /** `createOrderList`: for each line in cart order, refuse it if its product's stock
      is below its quantity, otherwise copy it into an order item and decrement the
      stock through `updateStockQuantity`. A refusal leaves the decrements already made;
      the caller's transaction undoes them. */
  method CreateOrderList(db: Db, lines: seq<Row<CartItem>>) returns (r: Result<seq<OrderItem>>)
    requires db.Valid() && ProductsKnown(lines, db.products)
    modifies db
    ensures db.Valid()
    ensures db.Snapshot().(products := old(db.products)) == old(db.Snapshot())
    ensures db.products.Keys == old(db.products).Keys
    ensures r.Ok? <==> Place(old(db.products), lines).Ok?
    ensures r.Ok? ==> r.value == Place(old(db.products), lines).value.items &&
                      db.products == Place(old(db.products), lines).value.products
    ensures r.Err? ==> r.failure == Place(old(db.products), lines).failure
  {
    var items: seq<OrderItem> := [];
    var i := 0;
    assert lines[i..] == lines;
    ContinueNothing(Place(db.products, lines));
    while i < |lines|
      invariant 0 <= i <= |lines|
      invariant db.Valid()
      invariant db.Snapshot().(products := old(db.products)) == old(db.Snapshot())
      invariant db.products.Keys == old(db.products).Keys
      invariant ProductsKnown(lines[i..], db.products)
      invariant Place(old(db.products), lines) == Continue(items, Place(db.products, lines[i..]))
    {
      var line := lines[i];
      assert lines[i..][0] == line && lines[i..][1..] == lines[i + 1..];
      var product := db.products[line.entity.productId];
      if product.stockQuantity < line.entity.quantity {
        return Err(OutOfStock(product.name));
      }
      PlaceStep(db.products, lines[i..]);
      ghost var rest := Place(ProductService.Decremented(db.products, line.entity.productId, line.entity.quantity), lines[i + 1..]);
      ContinueTwice(items, [ItemOf(line, product)], rest);
      items := items + [ItemOf(line, product)];
      var _ := ProductService.UpdateStockQuantity(db, line.entity.productId, line.entity.quantity);
      i := i + 1;
    }
    assert lines[i..] == [];
    r := Ok(items);
  }

  /** One step of `Place` on a line whose stock suffices. */
  lemma PlaceStep(products: map<nat, Product>, lines: seq<Row<CartItem>>)
    requires lines != [] && ProductsKnown(lines, products)
    requires products[lines[0].entity.productId].stockQuantity >= lines[0].entity.quantity
    ensures ProductsKnown(lines[1..], ProductService.Decremented(products, lines[0].entity.productId, lines[0].entity.quantity))
    ensures Place(products, lines) ==
      Continue([ItemOf(lines[0], products[lines[0].entity.productId])],
               Place(ProductService.Decremented(products, lines[0].entity.productId, lines[0].entity.quantity), lines[1..]))
  {
    forall l | l in lines[1..] ensures l.entity.productId in products { assert l in lines; }
  }

  lemma ContinueNothing(r: Result<Placement>)
    ensures Continue([], r) == r
  {
    if r.Ok? {
      assert [] + r.value.items == r.value.items;
    }
  }

  lemma ContinueTwice(a: seq<OrderItem>, b: seq<OrderItem>, r: Result<Placement>)
    ensures Continue(a, Continue(b, r)) == Continue(a + b, r)
  {
    if r.Ok? {
      assert a + (b + r.value.items) == (a + b) + r.value.items;
    }
  }

  // ---------------------------------------------------------------------------
  // The total (`calculateTotalAmount`)
  // ---------------------------------------------------------------------------

  function Subtotal(item: OrderItem): Money
  {
    item.unitPrice * (item.quantity as real)
  }

  /** Σ unitPrice × quantity over the items, in exact arithmetic. */
  function Total(items: seq<OrderItem>): Money
  {
    if items == [] then 0.0 else Total(items[..|items| - 1]) + Subtotal(items[|items| - 1])
  }

  /** `calculateTotalAmount`: the running sum of the items' subtotals, from zero. */
  method CalculateTotalAmount(items: seq<OrderItem>) returns (total: Money)
    ensures total == Total(items)
  {
    total := 0.0;
    var i := 0;
    while i < |items|
      invariant 0 <= i <= |items|
      invariant total == Total(items[..i])
    {
      assert items[..i + 1][..i] == items[..i];
      total := total + Subtotal(items[i]);
      i := i + 1;
    }
    assert items[..i] == items;
  }

  lemma {:induction false} TotalConcat(a: seq<OrderItem>, b: seq<OrderItem>)
    ensures Total(a + b) == Total(a) + Total(b)
    decreases |b|
  {
    if b == [] {
      assert a + b == a;
    } else {
      var c := b[..|b| - 1];
      assert (a + b)[..|a + b| - 1] == a + c;
      assert (a + b)[|a + b| - 1] == b[|b| - 1];
      TotalConcat(a, c);
    }
  }

  // ---------------------------------------------------------------------------
  // Placing an order (`createOrderFromCart`)
  // ---------------------------------------------------------------------------

  /** The lines `getCartitems` hands to order placement: the user's cart lines. */
  function CartLines(s: State, userId: nat): seq<Row<CartItem>>
  {
    LinesOfUser(s.cartItems, s.carts, userId)
  }

  /** The order saved for the user's placed items. */
  function NewOrder(userId: nat, items: seq<OrderItem>): (o: Order)
    ensures o.userId == userId && o.status == OrderStatus.PENDING && o.items == items && o.payment.None?
    ensures o.totalAmount == Total(items)
  {
    Order(userId, OrderStatus.PENDING, items, Total(items), None)
  }

  /** The database after the order is placed: stock taken, order saved under a fresh id,
      the user's cart lines deleted. */
  function Placed(s: State, userId: nat, p: Placement): State
  {
    s.(products := p.products,
       orders := s.orders[s.nextId := NewOrder(userId, p.items)],
       cartItems := LinesOfOthers(s.cartItems, s.carts, userId),
       nextId := s.nextId + 1)
  }

  /** `createOrderFromCart`. Transactional: any failure leaves the database as it was.
      Without a caller it fails before the cart is read; an empty cart is refused; a
      line beyond its product's stock is refused; the order is saved (the database
      refuses it when the user row is gone, and `saveFault` stands for any other failure
      of the save); only then is the cart cleared. */
  method CreateOrderFromCart(db: Db, caller: Option<Row<User>>, saveFault: Option<string>) returns (r: Result<OrderResponse>)
    requires db.Valid()
    modifies db
    ensures db.Valid()
    ensures r.Err? ==> db.Snapshot() == old(db.Snapshot())
    ensures caller.None? ==> r == Err(UserNotFound)
    ensures caller.Some? && CartLines(old(db.Snapshot()), caller.value.id) == [] ==> r == Err(CartEmpty)
    ensures caller.Some? && CartLines(old(db.Snapshot()), caller.value.id) != [] ==>
      ProductsKnown(CartLines(old(db.Snapshot()), caller.value.id), old(db.products)) &&
      var placed := Place(old(db.products), CartLines(old(db.Snapshot()), caller.value.id));
      (placed.Err? ==> r == Err(placed.failure)) &&
      (placed.Ok? && caller.value.id !in old(db.users) ==> r == Err(IntegrityViolation)) &&
      (placed.Ok? && caller.value.id in old(db.users) && saveFault.Some? ==> r == Err(StoreError(saveFault.value))) &&
      (placed.Ok? && caller.value.id in old(db.users) && saveFault.None? ==>
        db.Snapshot() == Placed(old(db.Snapshot()), caller.value.id, placed.value) &&
        r == Ok(OrderMapper.ToResponseDto(old(db.nextId), NewOrder(caller.value.id, placed.value.items), caller.value.entity.email)))
  {
    if caller.None? {
      return Err(UserNotFound);
    }
    var userId := caller.value.id;
    var lines := LinesOfUser(db.cartItems, db.carts, userId);
    if lines == [] {
      return Err(CartEmpty);
    }
    r := PlaceCart(db, caller.value, lines, saveFault);
  }

  /** `createOrderFromCart` once the caller's lines are known and not empty: place them,
      save the order and clear the cart, rolling the stock back on any failure. */
  method PlaceCart(db: Db, caller: Row<User>, lines: seq<Row<CartItem>>, saveFault: Option<string>) returns (r: Result<OrderResponse>)
    requires db.Valid() && ProductsKnown(lines, db.products)
    modifies db
    ensures db.Valid()
    ensures r.Err? ==> db.Snapshot() == old(db.Snapshot())
    ensures var placed := Place(old(db.products), lines);
      (placed.Err? ==> r == Err(placed.failure)) &&
      (placed.Ok? && caller.id !in old(db.users) ==> r == Err(IntegrityViolation)) &&
      (placed.Ok? && caller.id in old(db.users) && saveFault.Some? ==> r == Err(StoreError(saveFault.value))) &&
      (placed.Ok? && caller.id in old(db.users) && saveFault.None? ==>
        db.Snapshot() == Placed(old(db.Snapshot()), caller.id, placed.value) &&
        r == Ok(OrderMapper.ToResponseDto(old(db.nextId), NewOrder(caller.id, placed.value.items), caller.entity.email)))
  {
    var savedProducts := db.products;
    var items := CreateOrderList(db, lines);
    if items.Err? || caller.id !in db.users || saveFault.Some? {
      // the transaction rolls back the stock already taken
      db.products := savedProducts;
      r := if items.Err? then Err(items.failure)
           else if caller.id !in db.users then Err(IntegrityViolation)
           else Err(StoreError(saveFault.value));
      return;
    }
    r := SaveOrder(db, caller, items.value);
  }

  /** The end of `createOrderFromCart` once the items are placed: total the items, save
      the PENDING order owned by the caller, then clear the caller's cart. */
  method SaveOrder(db: Db, caller: Row<User>, items: seq<OrderItem>) returns (r: Result<OrderResponse>)
    requires db.Valid() && caller.id in db.users
    modifies db
    ensures db.Valid()
    ensures db.Snapshot() == old(db.Snapshot()).(
      orders := old(db.orders)[old(db.nextId) := NewOrder(caller.id, items)],
      cartItems := LinesOfOthers(old(db.cartItems), old(db.carts), caller.id),
      nextId := old(db.nextId) + 1)
    ensures r == Ok(OrderMapper.ToResponseDto(old(db.nextId), NewOrder(caller.id, items), caller.entity.email))
  {
    var total := CalculateTotalAmount(items);
    var order := Order(caller.id, OrderStatus.PENDING, items, total, None);
    var id := db.nextId;
    db.orders := db.orders[id := order];
    db.nextId := db.nextId + 1;
    var _ := CartItemService.CleanAuthUserCartItems(db, Some(caller));
    r := Ok(OrderMapper.ToResponseDto(id, order, caller.entity.email));
  }

  // ---------------------------------------------------------------------------
  // What a placement promises
  // ---------------------------------------------------------------------------

  /** One order item per cart line, in cart order, each copying the line's quantity and
      the product's price, id and name as they were when the order was placed. */
  lemma {:induction false} PlacedItems(products: map<nat, Product>, lines: seq<Row<CartItem>>)
    requires ProductsKnown(lines, products) && Place(products, lines).Ok?
    ensures |Place(products, lines).value.items| == |lines|
    ensures forall i :: 0 <= i < |lines| ==>
      Place(products, lines).value.items[i] ==
        OrderItem(None, lines[i].entity.quantity, products[lines[i].entity.productId].price,
                  lines[i].entity.productId, products[lines[i].entity.productId].name)
    decreases |lines|
  {
    if lines != [] {
      var line := lines[0];
      var rest := ProductService.Decremented(products, line.entity.productId, line.entity.quantity);
      assert ProductsKnown(lines[1..], rest) by {
        forall l | l in lines[1..] ensures l.entity.productId in rest { assert l in lines; }
      }
      PlacedItems(rest, lines[1..]);
      var items := Place(products, lines).value.items;
      assert items == [ItemOf(line, products[line.entity.productId])] + Place(rest, lines[1..]).value.items;
      forall i | 1 <= i < |lines|
        ensures items[i] == OrderItem(None, lines[i].entity.quantity, products[lines[i].entity.productId].price,
                                      lines[i].entity.productId, products[lines[i].entity.productId].name)
      {
        assert lines[1..][i - 1] == lines[i];
        assert lines[i] in lines;
      }
    }
  }

  /** The total quantity the lines take from product `k`. */
  function Taken(lines: seq<Row<CartItem>>, k: nat): int
  {
    if lines == [] then 0
    else (if lines[0].entity.productId == k then lines[0].entity.quantity else 0) + Taken(lines[1..], k)
  }

  /** Placement takes from each product exactly the quantity its lines ask for, one
      decrement per line, and changes nothing else about any product. */
  lemma {:induction false} PlacedStock(products: map<nat, Product>, lines: seq<Row<CartItem>>)
    requires ProductsKnown(lines, products) && Place(products, lines).Ok?
    ensures forall k :: k in products ==>
      Place(products, lines).value.products[k] == products[k].(stockQuantity := products[k].stockQuantity - Taken(lines, k))
    decreases |lines|
  {
    if lines != [] {
      var line := lines[0];
      var rest := ProductService.Decremented(products, line.entity.productId, line.entity.quantity);
      assert ProductsKnown(lines[1..], rest) by {
        forall l | l in lines[1..] ensures l.entity.productId in rest { assert l in lines; }
      }
      PlacedStock(rest, lines[1..]);
    }
  }

  /** With one line per product, a product's line is the only one taking from it. */
  lemma {:induction false} TakenByOwnLine(lines: seq<Row<CartItem>>, i: nat)
    requires DistinctProducts(lines) && i < |lines|
    ensures Taken(lines, lines[i].entity.productId) == lines[i].entity.quantity
    decreases |lines|
  {
    if i == 0 {
      TakenByNone(lines[1..], lines[0].entity.productId);
    } else {
      assert lines[1..][i - 1] == lines[i];
      TakenByOwnLine(lines[1..], i - 1);
    }
  }

  lemma {:induction false} TakenByNone(lines: seq<Row<CartItem>>, k: nat)
    requires forall l :: l in lines ==> l.entity.productId != k
    ensures Taken(lines, k) == 0
    decreases |lines|
  {
    if lines != [] {
      assert lines[0] in lines;
      assert forall l :: l in lines[1..] ==> l in lines;
      TakenByNone(lines[1..], k);
    }
  }

  /** After a first line that is not short, the remaining lines see the same
      shortness and the same product names in the decremented stock, since no other
      line is for the first line's product. */
  lemma RestAgrees(products: map<nat, Product>, lines: seq<Row<CartItem>>)
    requires ProductsKnown(lines, products) && DistinctProducts(lines) && lines != []
    ensures var rest := ProductService.Decremented(products, lines[0].entity.productId, lines[0].entity.quantity);
      ProductsKnown(lines[1..], rest) && DistinctProducts(lines[1..]) &&
      forall j :: 1 <= j < |lines| ==>
        lines[1..][j - 1] == lines[j] &&
        Short(rest, lines[j]) == Short(products, lines[j]) &&
        rest[lines[j].entity.productId].name == products[lines[j].entity.productId].name
  {
    var rest := ProductService.Decremented(products, lines[0].entity.productId, lines[0].entity.quantity);
    forall l | l in lines[1..] ensures l.entity.productId in rest { assert l in lines; }
    forall j | 1 <= j < |lines|
      ensures lines[j].entity.productId in rest
      ensures Short(rest, lines[j]) == Short(products, lines[j])
      ensures rest[lines[j].entity.productId].name == products[lines[j].entity.productId].name
    {
      assert lines[j] in lines;
      assert lines[j].entity.productId != lines[0].entity.productId;
    }
  }

  /** A failed placement names the product of the first line that asks for more than
      its product's stock. */
  lemma {:induction false} PlaceFailsAtFirstShort(products: map<nat, Product>, lines: seq<Row<CartItem>>)
    requires ProductsKnown(lines, products) && DistinctProducts(lines)
    ensures Place(products, lines).Err? ==>
      exists i :: 0 <= i < |lines| && Short(products, lines[i]) &&
        (forall j :: 0 <= j < i ==> !Short(products, lines[j])) &&
        Place(products, lines).failure == OutOfStock(products[lines[i].entity.productId].name)
    decreases |lines|
  {
    if lines != [] && !Short(products, lines[0]) && Place(products, lines).Err? {
      var rest := ProductService.Decremented(products, lines[0].entity.productId, lines[0].entity.quantity);
      RestAgrees(products, lines);
      PlaceFailsAtFirstShort(rest, lines[1..]);
      var i :| 0 <= i < |lines[1..]| && Short(rest, lines[1..][i]) &&
        (forall j :: 0 <= j < i ==> !Short(rest, lines[1..][j])) &&
        Place(rest, lines[1..]).failure == OutOfStock(rest[lines[1..][i].entity.productId].name);
      assert Short(products, lines[i + 1]);
      forall j | 0 <= j < i + 1
        ensures !Short(products, lines[j])
      {
        if j > 0 {
          assert !Short(rest, lines[1..][j - 1]);
        }
      }
    }
  }

  /** A successful placement had no line asking for more than its product's stock. */
  lemma {:induction false} PlaceSucceedsWithoutShort(products: map<nat, Product>, lines: seq<Row<CartItem>>)
    requires ProductsKnown(lines, products) && DistinctProducts(lines)
    ensures Place(products, lines).Ok? ==> forall i :: 0 <= i < |lines| ==> !Short(products, lines[i])
    decreases |lines|
  {
    if lines != [] && Place(products, lines).Ok? {
      assert lines[0] in lines;
      var rest := ProductService.Decremented(products, lines[0].entity.productId, lines[0].entity.quantity);
      RestAgrees(products, lines);
      PlaceSucceedsWithoutShort(rest, lines[1..]);
      forall i | 0 <= i < |lines|
        ensures !Short(products, lines[i])
      {
        if i > 0 {
          assert !Short(rest, lines[1..][i - 1]);
        }
      }
    }
  }

  /** With one line per product, placement fails exactly when some line asks for more
      than its product's stock, and the failure names the product of the first such line. */
  lemma {:induction false} PlaceFails(products: map<nat, Product>, lines: seq<Row<CartItem>>)
    requires ProductsKnown(lines, products) && DistinctProducts(lines)
    ensures Place(products, lines).Err? <==> exists i :: 0 <= i < |lines| && Short(products, lines[i])
    ensures Place(products, lines).Err? ==>
      exists i :: 0 <= i < |lines| && Short(products, lines[i]) &&
        (forall j :: 0 <= j < i ==> !Short(products, lines[j])) &&
        Place(products, lines).failure == OutOfStock(products[lines[i].entity.productId].name)
  {
    PlaceFailsAtFirstShort(products, lines);
    PlaceSucceedsWithoutShort(products, lines);
  }

  /** The value of the lines at the given prices: Σ price × quantity. */
  function CartValue(products: map<nat, Product>, lines: seq<Row<CartItem>>): Money
    requires ProductsKnown(lines, products)
  {
    if lines == [] then 0.0
    else
      var last := lines[|lines| - 1];
      assert last in lines;
      assert ProductsKnown(lines[..|lines| - 1], products) by {
        forall l | l in lines[..|lines| - 1] ensures l.entity.productId in products { assert l in lines; }
      }
      CartValue(products, lines[..|lines| - 1]) + products[last.entity.productId].price * (last.entity.quantity as real)
  }

  /** The order total is the value of the cart at the prices of the moment of placement. */
  lemma OrderTotalIsCartValue(products: map<nat, Product>, lines: seq<Row<CartItem>>)
    requires ProductsKnown(lines, products) && Place(products, lines).Ok?
    ensures NewOrder(0, Place(products, lines).value.items).totalAmount == CartValue(products, lines)
  {
    PlacedItems(products, lines);
    TotalOfCopies(Place(products, lines).value.items, products, lines);
  }

  lemma {:induction false} TotalOfCopies(items: seq<OrderItem>, products: map<nat, Product>, lines: seq<Row<CartItem>>)
    requires ProductsKnown(lines, products) && |items| == |lines|
    requires forall i :: 0 <= i < |lines| ==>
      items[i].unitPrice == products[lines[i].entity.productId].price && items[i].quantity == lines[i].entity.quantity
    ensures Total(items) == CartValue(products, lines)
    decreases |lines|
  {
    if lines != [] {
      var n := |lines| - 1;
      assert ProductsKnown(lines[..n], products) by {
        forall l | l in lines[..n] ensures l.entity.productId in products { assert l in lines; }
      }
      TotalOfCopies(items[..n], products, lines[..n]);
    }
  }

  /** The lines of one user's cart are for pairwise different products. */
  lemma {:induction false} CartLinesDistinct(lines: seq<Row<CartItem>>, carts: map<nat, Cart>, userId: nat)
    requires OneCartPerUser(carts) && OneLinePerProduct(lines)
    ensures DistinctProducts(LinesOfUser(lines, carts, userId))
    decreases |lines|
  {
    if lines != [] {
      assert OneLinePerProduct(lines[1..]);
      CartLinesDistinct(lines[1..], carts, userId);
      var rest := LinesOfUser(lines[1..], carts, userId);
      if OwnedBy(lines[0], carts, userId) {
        var r := LinesOfUser(lines, carts, userId);
        assert r == [lines[0]] + rest;
        forall j | 0 <= j < |rest|
          ensures rest[j].entity.productId != lines[0].entity.productId
        {
          assert rest[j] in rest;
          var m :| 0 <= m < |lines[1..]| && lines[1..][m] == rest[j];
          assert lines[m + 1] == rest[j];
        }
      }
    }
  }

  /** Placing a user's cart: it fails exactly when some line asks for more than its
      product's stock, and otherwise the order holds one item per line and every
      product in the cart loses exactly its line's quantity. */
  lemma PlacementOfCart(s: State, userId: nat)
    requires OneCartPerUser(s.carts) && OneLinePerProduct(s.cartItems)
    requires LinesReferToStore(s.cartItems, s.carts, s.products)
    ensures ProductsKnown(CartLines(s, userId), s.products)
    ensures Place(s.products, CartLines(s, userId)).Err? <==>
      exists i :: 0 <= i < |CartLines(s, userId)| && Short(s.products, CartLines(s, userId)[i])
    ensures Place(s.products, CartLines(s, userId)).Ok? ==>
      |Place(s.products, CartLines(s, userId)).value.items| == |CartLines(s, userId)|
    ensures Place(s.products, CartLines(s, userId)).Ok? ==>
      forall l :: l in CartLines(s, userId) ==>
        Place(s.products, CartLines(s, userId)).value.products[l.entity.productId].stockQuantity ==
          s.products[l.entity.productId].stockQuantity - l.entity.quantity
  {
    var lines := CartLines(s, userId);
    CartLinesDistinct(s.cartItems, s.carts, userId);
    PlaceFails(s.products, lines);
    if Place(s.products, lines).Ok? {
      var placed := Place(s.products, lines).value;
      PlacedItems(s.products, lines);
      PlacedStock(s.products, lines);
      forall l | l in lines
        ensures placed.products[l.entity.productId].stockQuantity == s.products[l.entity.productId].stockQuantity - l.entity.quantity
      {
        var i :| 0 <= i < |lines| && lines[i] == l;
        TakenByOwnLine(lines, i);
      }
    }
  }
}
