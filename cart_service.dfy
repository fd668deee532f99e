/** `CartService`: one cart per user, created on first use. */
module CartService {
  import opened Common
  import opened Entities
  import opened Store

  /** How the database answers the insert of a new cart, beyond the constraints the
      model checks itself: it accepts it, rejects it with an integrity violation (as a
      concurrent insert of the same user's cart would), or fails for another reason. */
  datatype SaveFault = NoFault | Integrity | Other(message: string)

  /** The insert is refused with an integrity violation: the user already has a cart
      (unique constraint), the user row does not exist (foreign key), or the database
      says so. */
  predicate InsertRejected(s: State, userId: nat, fault: SaveFault)
    requires OneCartPerUser(s.carts)
  {
    CartOf(s.carts, userId).Some? || userId !in s.users || fault == Integrity
  }

  const RecoveryFailed := Business("Erro ao recuperar carrinho", INTERNAL_SERVER_ERROR)

  /** `createUserCart`: insert a cart for the user; on an integrity violation re-read the
      user's cart, failing INTERNAL_SERVER_ERROR if there is none; any other failure of
      the insert propagates without a re-read. */
  method CreateUserCart(db: Db, userId: nat, fault: SaveFault) returns (r: Result<Row<Cart>>)
    requires db.Valid()
    modifies db
    ensures db.Valid() && OneCartPerUser(db.carts)
    ensures InsertRejected(old(db.Snapshot()), userId, fault) ==>
      db.Snapshot() == old(db.Snapshot()) &&
      r == (match CartOf(old(db.carts), userId)
              case Some(id) => Ok(Row(id, old(db.carts)[id]))
              case None => Err(RecoveryFailed))
    ensures !InsertRejected(old(db.Snapshot()), userId, fault) && fault.Other? ==>
      db.Snapshot() == old(db.Snapshot()) && r == Err(StoreError(fault.message))
    ensures !InsertRejected(old(db.Snapshot()), userId, fault) && fault == NoFault ==>
      r == Ok(Row(old(db.nextId), Cart(userId))) &&
      db.Snapshot() == old(db.Snapshot()).(carts := old(db.carts)[old(db.nextId) := Cart(userId)], nextId := old(db.nextId) + 1)
    ensures r.Ok? ==> CartOf(db.carts, userId) == Some(r.value.id) && r.value.entity.userId == userId
  {
    if InsertRejected(db.Snapshot(), userId, fault) {
      var existing := CartOf(db.carts, userId);
      match existing
      case Some(id) => return Ok(Row(id, db.carts[id]));
      case None => return Err(RecoveryFailed);
    }
    if fault.Other? {
      return Err(StoreError(fault.message));
    }
    var id := db.nextId;
    db.carts := db.carts[id := Cart(userId)];
    db.nextId := db.nextId + 1;
    assert OneCartPerUser(db.carts);
    assert CartOf(db.carts, userId).Some? by {
      assert id in db.carts && db.carts[id].userId == userId;
    }
    r := Ok(Row(id, Cart(userId)));
  }

  /** `findOrCreateCart`: the user's existing cart, creating nothing; otherwise
      `createUserCart`. */
  method FindOrCreateCart(db: Db, userId: nat, fault: SaveFault) returns (r: Result<Row<Cart>>)
    requires db.Valid()
    modifies db
    ensures db.Valid() && OneCartPerUser(db.carts)
    ensures CartOf(old(db.carts), userId).Some? ==>
      db.Snapshot() == old(db.Snapshot()) &&
      r == Ok(Row(CartOf(old(db.carts), userId).value, old(db.carts)[CartOf(old(db.carts), userId).value]))
    ensures CartOf(old(db.carts), userId).None? && userId in old(db.users) && fault == NoFault ==>
      r == Ok(Row(old(db.nextId), Cart(userId))) &&
      db.Snapshot() == old(db.Snapshot()).(carts := old(db.carts)[old(db.nextId) := Cart(userId)], nextId := old(db.nextId) + 1)
    ensures CartOf(old(db.carts), userId).None? && (userId !in old(db.users) || fault == Integrity) ==>
      db.Snapshot() == old(db.Snapshot()) && r == Err(RecoveryFailed)
    ensures CartOf(old(db.carts), userId).None? && userId in old(db.users) && fault.Other? ==>
      db.Snapshot() == old(db.Snapshot()) && r == Err(StoreError(fault.message))
    ensures r.Ok? ==> CartOf(db.carts, userId) == Some(r.value.id) && r.value.entity.userId == userId
  {
    var existing := CartOf(db.carts, userId);
    if existing.Some? {
      return Ok(Row(existing.value, db.carts[existing.value]));
    }
    r := CreateUserCart(db, userId, fault);
  }
}
