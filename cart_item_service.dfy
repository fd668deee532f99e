/** `CartItemService`: the lines of the users' carts. */
module CartItemService {
  import opened Common
  import opened Entities
  import opened Dtos
  import opened UserModel
  import opened Store
  import CartItemMapper
  import CartService
  import ProductService

  const UserNotFound := Business("User not found ", NOT_FOUND)

  function NoUser(userId: nat): Failure
  {
    Business("No user found with the id:  " + NatToString(userId), NOT_FOUND)
  }

  const StockExceeded := Business("Requested quantity exceeds available stock", CONFLICT)

  /** The quantity of the product already in the user's cart: that of the cart's line
      for the product, or 0 when the user has no cart or the cart no such line. */
  function QuantityInCart(s: State, userId: nat, productId: nat): int
    requires OneCartPerUser(s.carts)
  {
    match CartOf(s.carts, userId)
    case None => 0
    case Some(cartId) =>
      match IndexOfProductLine(s.cartItems, cartId, productId)
      case None => 0
      case Some(k) => s.cartItems[k].entity.quantity
  }

  /** The cart lines after merging `quantity` units of the product into the cart: the
      existing line's quantity grows by `quantity`, or a single new line with id
      `freshId` holds `quantity`; every other line is left as it was. */
  function MergedLines(lines: seq<Row<CartItem>>, cartId: nat, productId: nat, quantity: int, freshId: nat): (r: seq<Row<CartItem>>)
    requires OneLinePerProduct(lines)
    ensures IndexOfProductLine(lines, cartId, productId).Some? ==> |r| == |lines|
    ensures IndexOfProductLine(lines, cartId, productId).None? ==>
      |r| == |lines| + 1 && r[|lines|] == Row(freshId, CartItem(quantity, cartId, productId))
    ensures forall i :: 0 <= i < |lines| && (lines[i].entity.cartId != cartId || lines[i].entity.productId != productId) ==>
      r[i] == lines[i]
    ensures forall i :: 0 <= i < |lines| && lines[i].entity.cartId == cartId && lines[i].entity.productId == productId ==>
      r[i] == Row(lines[i].id, lines[i].entity.(quantity := lines[i].entity.quantity + quantity))
  {
    match IndexOfProductLine(lines, cartId, productId)
    case None => lines + [Row(freshId, CartItemMapper.ToEntity(quantity, cartId, productId))]
    case Some(k) => lines[k := Row(lines[k].id, lines[k].entity.(quantity := lines[k].entity.quantity + quantity))]
  }

  /** Merging keeps line ids unique and a single line per (cart, product), provided the
      id given to a new line is not in use. */
  lemma MergedLinesKeepInvariant(lines: seq<Row<CartItem>>, cartId: nat, productId: nat, quantity: int, freshId: nat)
    requires OneLinePerProduct(lines) && UniqueLineIds(lines)
    requires IndexOfProductLine(lines, cartId, productId).None? ==> forall i :: 0 <= i < |lines| ==> lines[i].id != freshId
    ensures OneLinePerProduct(MergedLines(lines, cartId, productId, quantity, freshId))
    ensures UniqueLineIds(MergedLines(lines, cartId, productId, quantity, freshId))
  {
    var r := MergedLines(lines, cartId, productId, quantity, freshId);
    forall i, j | 0 <= i < j < |r|
      ensures r[i].entity.cartId != r[j].entity.cartId || r[i].entity.productId != r[j].entity.productId
      ensures r[i].id != r[j].id
    {
      if j == |lines| {
        assert IndexOfProductLine(lines, cartId, productId).None?;
      }
    }
  }

  /** The cart step of `addProductToCart` succeeds: the user has a cart, or one can be inserted. */
  predicate CartReady(s: State, userId: nat, fault: CartService.SaveFault)
    requires OneCartPerUser(s.carts)
  {
    CartOf(s.carts, userId).Some? || fault == CartService.NoFault
  }

  /** `addProductToCart` inserts a cart: a known caller without one, and an insert that goes through. */
  predicate CreatesCart(s: State, caller: Option<Row<User>>, fault: CartService.SaveFault)
    requires OneCartPerUser(s.carts)
  {
    caller.Some? && caller.value.id in s.users && CartOf(s.carts, caller.value.id).None? && fault == CartService.NoFault
  }

  /** The line step of `addProductToCart`, once the cart and the product are known:
      the quantity already in the cart plus the requested quantity must not exceed the
      product's stock; then the existing line takes that total, or one new line holds
      the requested quantity. The response reports the total. */
  method MergeIntoCart(db: Db, cartId: nat, productId: nat, quantity: int) returns (r: Result<CartItemResponse>)
    requires db.Valid() && cartId in db.carts && productId in db.products
    modifies db
    ensures db.Valid()
    ensures db.Snapshot().(cartItems := old(db.cartItems), nextId := old(db.nextId)) == old(db.Snapshot())
    ensures var existing := IndexOfProductLine(old(db.cartItems), cartId, productId);
      var total := (if existing.Some? then old(db.cartItems)[existing.value].entity.quantity else 0) + quantity;
      (r.Ok? <==> total <= old(db.products)[productId].stockQuantity) &&
      (r.Err? ==> r == Err(StockExceeded) && db.Snapshot() == old(db.Snapshot())) &&
      (r.Ok? ==>
        r.value == CartItemResponse(r.value.cartItemId, old(db.products)[productId].name, old(db.products)[productId].price, total) &&
        db.cartItems == MergedLines(old(db.cartItems), cartId, productId, quantity, r.value.cartItemId) &&
        (existing.Some? ==> r.value.cartItemId == old(db.cartItems)[existing.value].id && db.nextId == old(db.nextId)) &&
        (existing.None? ==> r.value.cartItemId == old(db.nextId) && db.nextId == old(db.nextId) + 1))
  {
    var product := db.products[productId];
    var existing := IndexOfProductLine(db.cartItems, cartId, productId);
    var quantityInCart := if existing.Some? then db.cartItems[existing.value].entity.quantity else 0;
    var newTotal := quantityInCart + quantity;
    if product.stockQuantity < newTotal {
      return Err(StockExceeded);
    }
    var lineId, next := db.nextId, db.nextId + 1;
    if existing.Some? {
      lineId, next := db.cartItems[existing.value].id, db.nextId;
    }
    MergedLinesKeepInvariant(db.cartItems, cartId, productId, quantity, lineId);
    var lines := MergedLines(db.cartItems, cartId, productId, quantity, lineId);
    NewLinesKeepInv(db.Snapshot(), lines, next);
    db.cartItems, db.nextId := lines, next;
    var item := CartItem(newTotal, cartId, productId);
    r := Ok(CartItemMapper.ToResponseDto(lineId, item, product, newTotal));
  }

  /** `addProductToCart`. The caller must be authenticated and still stored; the user's
      cart is found or created (and stays created whatever happens next: the method is
      not transactional); the product is looked up; then the line step merges the
      requested quantity into the cart under the stock ceiling. */
  method AddProductToCart(db: Db, caller: Option<Row<User>>, request: CartItemRequest, fault: CartService.SaveFault)
    returns (r: Result<CartItemResponse>)
    requires db.Valid()
    modifies db
    ensures db.Valid()
    ensures caller.None? || caller.value.id !in old(db.users) ==>
      r == Err(UserNotFound) && db.Snapshot() == old(db.Snapshot())
    // only the carts, the cart lines and the id counter can change, and lines only on success
    ensures db.Snapshot().(carts := old(db.carts), cartItems := old(db.cartItems), nextId := old(db.nextId)) == old(db.Snapshot())
    ensures db.carts == old(db.carts) ||
      (caller.Some? && CartOf(old(db.carts), caller.value.id).None? &&
       db.carts == old(db.carts)[old(db.nextId) := Cart(caller.value.id)])
    ensures r.Err? ==> db.cartItems == old(db.cartItems)
    // a cart created for a cart-less user stays, whatever happens after its insert
    ensures CreatesCart(old(db.Snapshot()), caller, fault) ==>
      db.carts == old(db.carts)[old(db.nextId) := Cart(caller.value.id)]
    // the id counter advances once per row inserted: the cart, then a new line
    ensures db.nextId == old(db.nextId) + (if CreatesCart(old(db.Snapshot()), caller, fault) then 1 else 0)
                                         + (|db.cartItems| - |old(db.cartItems)|)
    ensures caller.Some? && caller.value.id in old(db.users) && !CartReady(old(db.Snapshot()), caller.value.id, fault) ==>
      db.Snapshot() == old(db.Snapshot()) &&
      r == Err(if fault.Other? then StoreError(fault.message) else CartService.RecoveryFailed)
    ensures caller.Some? && caller.value.id in old(db.users) && CartReady(old(db.Snapshot()), caller.value.id, fault) ==>
      if request.productId !in old(db.products) then
        r == Err(Business("No Product found with the id " + NatToString(request.productId), NOT_FOUND))
      else
        (r.Ok? <==> QuantityInCart(old(db.Snapshot()), caller.value.id, request.productId) + request.quantity
                    <= old(db.products)[request.productId].stockQuantity) &&
        (r.Err? ==> r == Err(StockExceeded))
    ensures r.Ok? ==>
      caller.Some? && request.productId in old(db.products) && CartOf(db.carts, caller.value.id).Some? &&
      r.value.quantity == QuantityInCart(old(db.Snapshot()), caller.value.id, request.productId) + request.quantity &&
      r.value.productName == old(db.products)[request.productId].name &&
      r.value.productPrice == old(db.products)[request.productId].price &&
      db.cartItems == MergedLines(old(db.cartItems), CartOf(db.carts, caller.value.id).value, request.productId,
                                  request.quantity, r.value.cartItemId)
  {
    if caller.None? || caller.value.id !in db.users {
      return Err(UserNotFound);
    }
    var userId := caller.value.id;
    var cart := CartService.FindOrCreateCart(db, userId, fault);
    if cart.Err? {
      return Err(cart.failure);
    }
    if CartOf(old(db.carts), userId).None? {
      FreshCartIsEmpty(old(db.Snapshot()), userId, request.productId);
    }
    r := AddToCart(db, userId, cart.value.id, request);
  }

  /** The steps of `addProductToCart` once the user's cart is known: the product is
      looked up, then the line step merges the requested quantity into the cart. */
  method AddToCart(db: Db, userId: nat, cartId: nat, request: CartItemRequest) returns (r: Result<CartItemResponse>)
    requires db.Valid() && CartOf(db.carts, userId) == Some(cartId)
    modifies db
    ensures db.Valid()
    ensures db.Snapshot().(cartItems := old(db.cartItems), nextId := old(db.nextId)) == old(db.Snapshot())
    ensures r.Err? ==> db.Snapshot() == old(db.Snapshot())
    ensures db.nextId == old(db.nextId) + (|db.cartItems| - |old(db.cartItems)|)
    ensures request.productId !in old(db.products) ==>
      r == Err(Business("No Product found with the id " + NatToString(request.productId), NOT_FOUND))
    ensures request.productId in old(db.products) ==>
      (r.Ok? <==> QuantityInCart(old(db.Snapshot()), userId, request.productId) + request.quantity
                  <= old(db.products)[request.productId].stockQuantity) &&
      (r.Err? ==> r == Err(StockExceeded))
    ensures r.Ok? ==>
      request.productId in old(db.products) &&
      r.value.quantity == QuantityInCart(old(db.Snapshot()), userId, request.productId) + request.quantity &&
      r.value.productName == old(db.products)[request.productId].name &&
      r.value.productPrice == old(db.products)[request.productId].price &&
      db.cartItems == MergedLines(old(db.cartItems), cartId, request.productId, request.quantity, r.value.cartItemId)
  {
    var product := ProductService.GetProduct(db.products, request.productId);
    if product.Err? {
      return Err(product.failure);
    }
    r := MergeIntoCart(db, cartId, request.productId, request.quantity);
  }

  /** A cart just created for a user holds none of the existing lines, so the
      quantity of any product in it is 0, as it was before it existed. */
  lemma FreshCartIsEmpty(s: State, userId: nat, productId: nat)
    requires Inv(s) && CartOf(s.carts, userId).None?
    ensures var t := s.(carts := s.carts[s.nextId := Cart(userId)], nextId := s.nextId + 1);
      OneCartPerUser(t.carts) ==>
      QuantityInCart(t, userId, productId) == 0 == QuantityInCart(s, userId, productId)
  {
    var t := s.(carts := s.carts[s.nextId := Cart(userId)], nextId := s.nextId + 1);
    if OneCartPerUser(t.carts) {
      assert s.nextId in t.carts && t.carts[s.nextId].userId == userId;
      assert CartOf(t.carts, userId).value == s.nextId;
      forall i | 0 <= i < |s.cartItems| ensures s.cartItems[i].entity.cartId != s.nextId {
        assert s.cartItems[i] in s.cartItems;
      }
    }
  }

  /** The records of cart lines, each with its product's name and price and its own quantity. */
  function LineResponses(lines: seq<Row<CartItem>>, products: map<nat, Product>): (r: seq<CartItemResponse>)
    requires forall l :: l in lines ==> l.entity.productId in products
    ensures |r| == |lines|
    ensures forall i :: 0 <= i < |lines| ==>
      r[i] == CartItemResponse(lines[i].id, products[lines[i].entity.productId].name,
                               products[lines[i].entity.productId].price, lines[i].entity.quantity)
  {
    if lines == [] then []
    else
      [CartItemMapper.ToResponseDto(lines[0].id, lines[0].entity, products[lines[0].entity.productId], lines[0].entity.quantity)]
      + LineResponses(lines[1..], products)
  }

  /** `getUserCartItems`: the lines of the given user's cart; NOT_FOUND for an unknown user. */
  function GetUserCartItems(s: State, userId: nat): (r: Result<seq<CartItemResponse>>)
    requires LinesReferToStore(s.cartItems, s.carts, s.products)
    ensures r.Err? <==> userId !in s.users
    ensures r.Err? ==> r.failure == NoUser(userId)
    ensures r.Ok? ==>
      var lines := LinesOfUser(s.cartItems, s.carts, userId);
      |r.value| == |lines| &&
      forall i :: 0 <= i < |lines| ==>
        lines[i] in s.cartItems &&
        r.value[i] == CartItemResponse(lines[i].id, s.products[lines[i].entity.productId].name,
                                       s.products[lines[i].entity.productId].price, lines[i].entity.quantity)
  {
    if userId !in s.users then Err(NoUser(userId))
    else
      var lines := LinesOfUser(s.cartItems, s.carts, userId);
      Ok(LineResponses(lines, s.products))
  }

  /** `getAuthCartItems`: the lines of the caller's cart. */
  function GetAuthCartItems(s: State, caller: Option<Row<User>>): (r: Result<seq<CartItemResponse>>)
    requires LinesReferToStore(s.cartItems, s.carts, s.products)
    ensures r.Err? <==> caller.None?
    ensures r.Err? ==> r.failure == UserNotFound
    ensures r.Ok? ==>
      var lines := LinesOfUser(s.cartItems, s.carts, caller.value.id);
      |r.value| == |lines| &&
      forall i :: 0 <= i < |lines| ==>
        lines[i] in s.cartItems &&
        r.value[i] == CartItemResponse(lines[i].id, s.products[lines[i].entity.productId].name,
                                       s.products[lines[i].entity.productId].price, lines[i].entity.quantity)
  {
    if caller.None? then Err(UserNotFound)
    else
      var lines := LinesOfUser(s.cartItems, s.carts, caller.value.id);
      Ok(LineResponses(lines, s.products))
  }

  /** The lines without the one at position `k`, whose id is unique. */
  function RemovedAt(lines: seq<Row<CartItem>>, k: nat): (r: seq<Row<CartItem>>)
    requires k < |lines| && UniqueLineIds(lines) && OneLinePerProduct(lines)
    ensures |r| == |lines| - 1
    ensures forall l :: l in r <==> l in lines && l.id != lines[k].id
    ensures forall j :: 0 <= j < |r| ==> r[j] == lines[if j < k then j else j + 1]
    ensures UniqueLineIds(r) && OneLinePerProduct(r)
  {
    var r := lines[..k] + lines[k + 1..];
    assert forall j :: 0 <= j < |r| ==> r[j] == lines[if j < k then j else j + 1];
    forall l | l in lines
      ensures l in r <==> l.id != lines[k].id
    {
      var j :| 0 <= j < |lines| && lines[j] == l;
      if j < k {
        assert r[j] == l;
      } else if j > k {
        assert r[j - 1] == l;
      }
    }
    r
  }

  /** `deleteCartItem`: removes exactly the line with that id; NOT_FOUND otherwise. */
  method DeleteCartItem(db: Db, id: nat) returns (r: Outcome)
    requires db.Valid()
    modifies db
    ensures db.Valid()
    ensures (forall l :: l in old(db.cartItems) ==> l.id != id) ==>
      r == Fail(Business("No cart item found with the id " + NatToString(id), NOT_FOUND)) && db.Snapshot() == old(db.Snapshot())
    ensures (exists l :: l in old(db.cartItems) && l.id == id) ==>
      r == Pass &&
      db.Snapshot() == old(db.Snapshot()).(cartItems := db.cartItems) &&
      |db.cartItems| == |old(db.cartItems)| - 1 &&
      (forall l :: l in db.cartItems <==> l in old(db.cartItems) && l.id != id) &&
      // the other lines keep their order
      (exists k :: 0 <= k < |old(db.cartItems)| && old(db.cartItems)[k].id == id &&
        db.cartItems == old(db.cartItems)[..k] + old(db.cartItems)[k + 1..])
  {
    var k := IndexOfLine(db.cartItems, id);
    if k.None? {
      assert forall l :: l in old(db.cartItems) ==> l.id != id;
      return Fail(Business("No cart item found with the id " + NatToString(id), NOT_FOUND));
    }
    var lines := db.cartItems;
    var rest := RemovedAt(lines, k.value);
    NewLinesKeepInv(db.Snapshot(), rest, db.nextId);
    assert rest == lines[..k.value] + lines[k.value + 1..];
    db.cartItems := rest;
    r := Pass;
  }

  /** Every line `LinesOfOthers` keeps is a later line of the input. */
  lemma KeptLinesComeLater(lines: seq<Row<CartItem>>, carts: map<nat, Cart>, userId: nat)
    requires lines != []
    ensures forall l :: l in LinesOfOthers(lines[1..], carts, userId) ==> exists m :: 1 <= m < |lines| && lines[m] == l
  {
    forall l | l in LinesOfOthers(lines[1..], carts, userId)
      ensures exists m :: 1 <= m < |lines| && lines[m] == l
    {
      var m :| 0 <= m < |lines[1..]| && lines[1..][m] == l;
      assert lines[m + 1] == l;
    }
  }

  /** Dropping the user's lines keeps ids unique and one line per (cart, product). */
  lemma {:induction false} LinesOfOthersKeepInvariant(lines: seq<Row<CartItem>>, carts: map<nat, Cart>, userId: nat)
    requires UniqueLineIds(lines) && OneLinePerProduct(lines)
    ensures UniqueLineIds(LinesOfOthers(lines, carts, userId))
    ensures OneLinePerProduct(LinesOfOthers(lines, carts, userId))
  {
    if lines != [] {
      var rest := LinesOfOthers(lines[1..], carts, userId);
      LinesOfOthersKeepInvariant(lines[1..], carts, userId);
      KeptLinesComeLater(lines, carts, userId);
      var r := LinesOfOthers(lines, carts, userId);
      if !OwnedBy(lines[0], carts, userId) {
        assert r == [lines[0]] + rest;
        forall i, j | 0 <= i < j < |r|
          ensures r[i].id != r[j].id
          ensures r[i].entity.cartId != r[j].entity.cartId || r[i].entity.productId != r[j].entity.productId
        {
          assert r[j] == rest[j - 1] && rest[j - 1] in rest;
          if i > 0 {
            assert r[i] == rest[i - 1];
          }
        }
      }
    }
  }

  /** `cleanUserCartItems`: the user's lines are deleted and every other line stays,
      in order; NOT_FOUND for an unknown user. */
  method CleanUserCartItems(db: Db, userId: nat) returns (r: Outcome)
    requires db.Valid()
    modifies db
    ensures db.Valid()
    ensures userId !in old(db.users) ==> r == Fail(NoUser(userId)) && db.Snapshot() == old(db.Snapshot())
    ensures userId in old(db.users) ==>
      r == Pass && db.Snapshot() == old(db.Snapshot()).(cartItems := LinesOfOthers(old(db.cartItems), old(db.carts), userId))
    ensures userId in old(db.users) ==> LinesOfUser(db.cartItems, db.carts, userId) == []
  {
    if userId !in db.users {
      return Fail(NoUser(userId));
    }
    LinesOfOthersKeepInvariant(db.cartItems, db.carts, userId);
    NewLinesKeepInv(db.Snapshot(), LinesOfOthers(db.cartItems, db.carts, userId), db.nextId);
    db.cartItems := LinesOfOthers(db.cartItems, db.carts, userId);
    NoLinesLeft(db.cartItems, db.carts, userId);
    r := Pass;
  }

  /** `cleanAuthUserCartitems`: as `cleanUserCartItems` for the caller. */
  method CleanAuthUserCartItems(db: Db, caller: Option<Row<User>>) returns (r: Outcome)
    requires db.Valid()
    modifies db
    ensures db.Valid()
    ensures caller.None? ==> r == Fail(UserNotFound) && db.Snapshot() == old(db.Snapshot())
    ensures caller.Some? ==>
      r == Pass && db.Snapshot() == old(db.Snapshot()).(cartItems := LinesOfOthers(old(db.cartItems), old(db.carts), caller.value.id))
    ensures caller.Some? ==> LinesOfUser(db.cartItems, db.carts, caller.value.id) == []
  {
    if caller.None? {
      return Fail(UserNotFound);
    }
    LinesOfOthersKeepInvariant(db.cartItems, db.carts, caller.value.id);
    NewLinesKeepInv(db.Snapshot(), LinesOfOthers(db.cartItems, db.carts, caller.value.id), db.nextId);
    db.cartItems := LinesOfOthers(db.cartItems, db.carts, caller.value.id);
    NoLinesLeft(db.cartItems, db.carts, caller.value.id);
    r := Pass;
  }

  /** After the user's lines are dropped, the user has none left, and the lines of the
      other users are exactly those they had. */
  lemma NoLinesLeft(lines: seq<Row<CartItem>>, carts: map<nat, Cart>, userId: nat)
    ensures LinesOfUser(LinesOfOthers(lines, carts, userId), carts, userId) == []
    ensures forall other :: other != userId ==>
      (forall l :: l in LinesOfUser(LinesOfOthers(lines, carts, userId), carts, other) <==> l in LinesOfUser(lines, carts, other))
  {
  }
}
