/** The repositories the services read and write, held together as one database.
    Every repository is a map from row id to entity, except the cart lines, which
    are kept in insertion order because the order of a cart's lines becomes the
    order of the items of the order placed from it. */
module Store {
  import opened Common
  import opened Entities
  import opened UserModel

  /** The whole database as a value; `nextId` is the next id the database will hand out. */
  datatype State = State(
    users: map<nat, User>,
    products: map<nat, Product>,
    categories: map<nat, Category>,
    productCategories: map<nat, ProductCategory>,
    carts: map<nat, Cart>,
    cartItems: seq<Row<CartItem>>,
    orders: map<nat, Order>,
    payments: map<nat, Payment>,
    images: map<nat, ProductImage>,
    nextId: nat)

  // ---------------------------------------------------------------------------
  // Invariants: unique constraints, foreign keys and id allocation
  // ---------------------------------------------------------------------------

  predicate KeysBelow<T>(m: map<nat, T>, bound: nat)
  {
    forall id :: id in m ==> id < bound
  }

  predicate LineIdsBelow(lines: seq<Row<CartItem>>, bound: nat)
  {
    forall l :: l in lines ==> l.id < bound
  }

  predicate UniqueLineIds(lines: seq<Row<CartItem>>)
  {
    forall i, j :: 0 <= i < j < |lines| ==> lines[i].id != lines[j].id
  }

  /** At most one cart per user. The source gets this from the cart sharing its user's
      primary key (`@MapsId`); here a cart has an id of its own (see `CartService.CreateUserCart`). */
  predicate OneCartPerUser(carts: map<nat, Cart>)
  {
    forall a, b :: a in carts && b in carts && carts[a].userId == carts[b].userId ==> a == b
  }

  /** A cart holds at most one line per product. */
  predicate OneLinePerProduct(lines: seq<Row<CartItem>>)
  {
    forall i, j :: 0 <= i < j < |lines| ==>
      lines[i].entity.cartId != lines[j].entity.cartId || lines[i].entity.productId != lines[j].entity.productId
  }

  predicate OnePaymentPerOrder(payments: map<nat, Payment>)
  {
    forall a, b :: a in payments && b in payments && payments[a].orderId == payments[b].orderId ==> a == b
  }

  /** The unique constraint on the user's email column. */
  predicate UniqueEmails(users: map<nat, User>)
  {
    forall a, b :: a in users && b in users && users[a].email == users[b].email ==> a == b
  }

  predicate UniqueCategoryNames(categories: map<nat, Category>)
  {
    forall a, b :: a in categories && b in categories && categories[a].name == categories[b].name ==> a == b
  }

  /** A product is put in a category at most once. */
  predicate OneLinkPerPair(links: map<nat, ProductCategory>)
  {
    forall a, b :: a in links && b in links && links[a] == links[b] ==> a == b
  }

  predicate LinesReferToStore(lines: seq<Row<CartItem>>, carts: map<nat, Cart>, products: map<nat, Product>)
  {
    forall l :: l in lines ==> l.entity.cartId in carts && l.entity.productId in products
  }

  predicate LinksReferToStore(links: map<nat, ProductCategory>, products: map<nat, Product>, categories: map<nat, Category>)
  {
    forall id :: id in links ==> links[id].productId in products && links[id].categoryId in categories
  }

  predicate ImagesReferToProducts(images: map<nat, ProductImage>, products: map<nat, Product>)
  {
    forall id :: id in images ==> images[id].productId in products
  }

  predicate ParentsExist(categories: map<nat, Category>)
  {
    forall id :: id in categories && categories[id].parent.Some? ==> categories[id].parent.value in categories
  }

  predicate PaymentsReferToOrders(payments: map<nat, Payment>, orders: map<nat, Order>)
  {
    forall id :: id in payments ==> payments[id].orderId in orders
  }

  predicate OrdersReferToUsers(orders: map<nat, Order>, users: map<nat, User>)
  {
    forall id :: id in orders ==> orders[id].userId in users
  }

  predicate IdsBelow(s: State)
  {
    KeysBelow(s.users, s.nextId) && KeysBelow(s.products, s.nextId) && KeysBelow(s.categories, s.nextId) &&
    KeysBelow(s.productCategories, s.nextId) && KeysBelow(s.carts, s.nextId) && LineIdsBelow(s.cartItems, s.nextId) &&
    KeysBelow(s.orders, s.nextId) && KeysBelow(s.payments, s.nextId) && KeysBelow(s.images, s.nextId)
  }

  /** What the database's constraints and the services together keep true. */
  predicate Inv(s: State)
  {
    IdsBelow(s) &&
    UniqueLineIds(s.cartItems) &&
    OneCartPerUser(s.carts) &&
    OneLinePerProduct(s.cartItems) &&
    OnePaymentPerOrder(s.payments) &&
    UniqueEmails(s.users) &&
    UniqueCategoryNames(s.categories) &&
    OneLinkPerPair(s.productCategories) &&
    LinesReferToStore(s.cartItems, s.carts, s.products) &&
    LinksReferToStore(s.productCategories, s.products, s.categories) &&
    ImagesReferToProducts(s.images, s.products) &&
    ParentsExist(s.categories) &&
    PaymentsReferToOrders(s.payments, s.orders) &&
    OrdersReferToUsers(s.orders, s.users)
  }

  /** Replacing the cart lines keeps the invariant when the new lines keep it. */
  lemma NewLinesKeepInv(s: State, lines: seq<Row<CartItem>>, nextId: nat)
    requires Inv(s) && s.nextId <= nextId
    requires UniqueLineIds(lines) && OneLinePerProduct(lines) && LineIdsBelow(lines, nextId)
    requires LinesReferToStore(lines, s.carts, s.products)
    ensures Inv(s.(cartItems := lines, nextId := nextId))
  {
  }

  /** Changing product fields other than the key set keeps the invariant. */
  lemma NewProductsKeepInv(s: State, products: map<nat, Product>)
    requires Inv(s) && products.Keys == s.products.Keys
    ensures Inv(s.(products := products))
  {
  }

  const Empty := State(map[], map[], map[], map[], map[], [], map[], map[], map[], 0)

  lemma EmptyIsValid()
    ensures Inv(Empty)
  {
  }

  // ---------------------------------------------------------------------------
  // Queries on cart lines
  // ---------------------------------------------------------------------------

  /** The line belongs to a cart of the given user. */
  predicate OwnedBy(line: Row<CartItem>, carts: map<nat, Cart>, userId: nat)
  {
    line.entity.cartId in carts && carts[line.entity.cartId].userId == userId
  }

  /** `findByCartUser`: the user's lines, in store order. */
  function LinesOfUser(lines: seq<Row<CartItem>>, carts: map<nat, Cart>, userId: nat): (r: seq<Row<CartItem>>)
    ensures |r| <= |lines|
    ensures forall l :: l in r <==> l in lines && OwnedBy(l, carts, userId)
    ensures r == [] <==> forall l :: l in lines ==> !OwnedBy(l, carts, userId)
  {
    if lines == [] then []
    else (if OwnedBy(lines[0], carts, userId) then [lines[0]] else []) + LinesOfUser(lines[1..], carts, userId)
  }

  /** What `deleteAll(findByCartUser(user))` leaves: every other line, in store order. */
  function LinesOfOthers(lines: seq<Row<CartItem>>, carts: map<nat, Cart>, userId: nat): (r: seq<Row<CartItem>>)
    ensures |r| <= |lines|
    ensures forall l :: l in r <==> l in lines && !OwnedBy(l, carts, userId)
  {
    if lines == [] then []
    else (if OwnedBy(lines[0], carts, userId) then [] else [lines[0]]) + LinesOfOthers(lines[1..], carts, userId)
  }

  /** `findById` on the cart lines: the position of the line with that id. */
  function IndexOfLine(lines: seq<Row<CartItem>>, id: nat): (r: Option<nat>)
    ensures r.Some? ==> r.value < |lines| && lines[r.value].id == id
    ensures r.None? <==> forall i :: 0 <= i < |lines| ==> lines[i].id != id
  {
    if lines == [] then None
    else if lines[0].id == id then Some(0)
    else match IndexOfLine(lines[1..], id)
      case None => None
      case Some(k) => Some(k + 1)
  }

  /** `findByProductAndCart`: the position of the cart's line for that product. */
  function IndexOfProductLine(lines: seq<Row<CartItem>>, cartId: nat, productId: nat): (r: Option<nat>)
    ensures r.Some? ==> r.value < |lines| && lines[r.value].entity.cartId == cartId && lines[r.value].entity.productId == productId
    ensures r.None? <==> forall i :: 0 <= i < |lines| ==> lines[i].entity.cartId != cartId || lines[i].entity.productId != productId
  {
    if lines == [] then None
    else if lines[0].entity.cartId == cartId && lines[0].entity.productId == productId then Some(0)
    else match IndexOfProductLine(lines[1..], cartId, productId)
      case None => None
      case Some(k) => Some(k + 1)
  }

  /** `findByUser` on the carts: the id of the user's cart. */
  function CartOf(carts: map<nat, Cart>, userId: nat): (r: Option<nat>)
    requires OneCartPerUser(carts)
    ensures r.Some? ==> r.value in carts && carts[r.value].userId == userId
    ensures r.None? <==> forall id :: id in carts ==> carts[id].userId != userId
  {
    if exists id :: id in carts && carts[id].userId == userId then
      var id :| id in carts && carts[id].userId == userId; Some(id)
    else None
  }

  /** `findByEmail`: the id of the one user holding that email, if any; a null email
      matches nobody. */
  function FindByEmail(users: map<nat, User>, email: Option<string>): (r: Option<nat>)
    requires UniqueEmails(users)
    ensures r.Some? ==> r.value in users && Some(users[r.value].email) == email
    ensures r.None? <==> forall id :: id in users ==> Some(users[id].email) != email
  {
    if exists id :: id in users && Some(users[id].email) == email then
      var id :| id in users && Some(users[id].email) == email; Some(id)
    else None
  }

  // ---------------------------------------------------------------------------
  // The database object
  // ---------------------------------------------------------------------------

  class Db {
    var users: map<nat, User>
    var products: map<nat, Product>
    var categories: map<nat, Category>
    var productCategories: map<nat, ProductCategory>
    var carts: map<nat, Cart>
    var cartItems: seq<Row<CartItem>>
    var orders: map<nat, Order>
    var payments: map<nat, Payment>
    var images: map<nat, ProductImage>
    var nextId: nat

    function Snapshot(): State
      reads this
    {
      State(users, products, categories, productCategories, carts, cartItems, orders, payments, images, nextId)
    }

    ghost predicate Valid()
      reads this
    {
      Inv(Snapshot())
    }

    /** An empty database. */
    constructor ()
      ensures Valid() && Snapshot() == Empty
    {
      users, products, categories, productCategories := map[], map[], map[], map[];
      carts, cartItems, orders, payments, images := map[], [], map[], map[], map[];
      nextId := 0;
    }
  }
}
