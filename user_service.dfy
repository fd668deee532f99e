/** `UserService`: account administration. */
module UserService {
  import opened Common
  import opened Entities
  import opened Dtos
  import opened UserRoles
  import opened UserModel
  import opened Store
  import opened PasswordEncoding
  import UserMapper

  function NotFound(userId: nat): Failure
  {
    Business("No User Found with id " + NatToString(userId), NOT_FOUND)
  }

  const EmailInUse := Business("Email already in use", CONFLICT)
  const NotYourPassword := Business("You can only update your own password", CONFLICT)
  const IncorrectPassword := Business("Incorrect Password", UNAUTHORIZED)

  predicate EmailTaken(users: map<nat, User>, email: string)
  {
    exists id :: id in users && users[id].email == email
  }

  /** `updateUser`: refused when any user, the updated one included, already holds the
      requested email; otherwise email, encoded password and role are overwritten. */
  method UpdateUser(db: Db, encoder: PasswordEncoder, userId: nat, request: RegisterRequest) returns (r: Result<UserResponse>)
    requires db.Valid()
    modifies db
    ensures db.Valid()
    ensures r.Err? ==> db.Snapshot() == old(db.Snapshot())
    ensures userId !in old(db.users) ==> r == Err(NotFound(userId))
    ensures userId in old(db.users) && EmailTaken(old(db.users), request.email) ==> r == Err(EmailInUse)
    ensures r.Ok? <==> userId in old(db.users) && !EmailTaken(old(db.users), request.email)
    ensures r.Ok? ==>
      r.value == UserResponse(request.email, request.role) &&
      db.Snapshot() == old(db.Snapshot()).(users := old(db.users)[userId :=
        old(db.users)[userId].(email := request.email, password := encoder.encode(request.password), role := request.role)])
  {
    if userId !in db.users {
      return Err(NotFound(userId));
    }
    if EmailTaken(db.users, request.email) {
      return Err(EmailInUse);
    }
    var user := db.users[userId].(email := request.email, password := encoder.encode(request.password), role := request.role);
    db.users := db.users[userId := user];
    r := Ok(UserResponse(user.email, user.role));
  }

  /** `isOwner`: the caller is the user being updated (entities compare by id). */
  predicate IsOwner(target: nat, caller: Row<User>)
  {
    caller.id == target
  }

  predicate IsAdmin(caller: Row<User>)
  {
    caller.entity.role == Some(ADMIN)
  }

  /** Who may change whose password: the owner, provided the current password given
      matches the caller's, or an ADMIN changing another user's password. */
  function PasswordCheck(encoder: PasswordEncoder, target: nat, caller: Row<User>, actualPassword: Option<string>): (r: Outcome)
    ensures r.Pass? <==>
      (IsOwner(target, caller) && encoder.matches(actualPassword, caller.entity.password)) ||
      (!IsOwner(target, caller) && IsAdmin(caller))
    ensures !IsOwner(target, caller) && !IsAdmin(caller) ==> r == Fail(NotYourPassword)
    ensures IsOwner(target, caller) && !encoder.matches(actualPassword, caller.entity.password) ==> r == Fail(IncorrectPassword)
  {
    if !IsOwner(target, caller) && !IsAdmin(caller) then Fail(NotYourPassword)
    else if IsOwner(target, caller) && !encoder.matches(actualPassword, caller.entity.password) then Fail(IncorrectPassword)
    else Pass
  }

  /** `PasswordUpdate`: the target is looked up before the caller; then the
      owner-or-admin rule; the new password is stored encoded. */
  method PasswordUpdate(db: Db, encoder: PasswordEncoder, caller: Option<Row<User>>, request: PasswordUpdateRequest)
    returns (r: Outcome)
    requires db.Valid()
    modifies db
    ensures db.Valid()
    ensures r.Fail? ==> db.Snapshot() == old(db.Snapshot())
    ensures request.userId !in old(db.users) || caller.None? ==> r == Fail(NotFound(request.userId))
    ensures request.userId in old(db.users) && caller.Some? ==>
      r == PasswordCheck(encoder, request.userId, caller.value, request.actualPassword)
    ensures r.Pass? ==>
      request.userId in old(db.users) &&
      db.Snapshot() == old(db.Snapshot()).(users := old(db.users)[request.userId :=
        old(db.users)[request.userId].(password := encoder.encode(request.newPassword))])
    ensures r.Pass? && Sound(encoder) ==> encoder.matches(Some(request.newPassword), db.users[request.userId].password)
  {
    if request.userId !in db.users {
      return Fail(NotFound(request.userId));
    }
    var target := db.users[request.userId];
    if caller.None? {
      return Fail(NotFound(request.userId));
    }
    r := PasswordCheck(encoder, request.userId, caller.value, request.actualPassword);
    if r.Fail? {
      return;
    }
    db.users := db.users[request.userId := target.(password := encoder.encode(request.newPassword))];
  }

  /** An ADMIN changing another user's password is never asked for a current password. */
  lemma AdminSkipsPasswordCheck(encoder: PasswordEncoder, target: nat, caller: Row<User>, actualPassword: Option<string>)
    requires IsAdmin(caller) && !IsOwner(target, caller)
    ensures PasswordCheck(encoder, target, caller, actualPassword) == Pass
  {
  }

  /** An ADMIN changing its own password must give the current one like anyone else. */
  lemma AdminOwnerIsChecked(encoder: PasswordEncoder, target: nat, caller: Row<User>, actualPassword: Option<string>)
    requires IsAdmin(caller) && IsOwner(target, caller)
    ensures PasswordCheck(encoder, target, caller, actualPassword).Pass? <==> encoder.matches(actualPassword, caller.entity.password)
  {
  }

  /** The user with the lock flag flipped. */
  function ToggleLock(u: User): (v: User)
    ensures v.locked == !u.locked
    ensures v.(locked := u.locked) == u
  {
    u.(locked := !u.locked)
  }

  /** Toggling twice gives back the user as it was. */
  lemma ToggleLockTwice(u: User)
    ensures ToggleLock(ToggleLock(u)) == u
  {
  }

  /** `toggleUserLock`. */
  method ToggleUserLock(db: Db, userId: nat) returns (r: Result<UserResponse>)
    requires db.Valid()
    modifies db
    ensures db.Valid()
    ensures userId !in old(db.users) ==> r == Err(NotFound(userId)) && db.Snapshot() == old(db.Snapshot())
    ensures userId in old(db.users) ==>
      r == Ok(UserMapper.ToResponseDto(old(db.users)[userId])) &&
      db.Snapshot() == old(db.Snapshot()).(users := old(db.users)[userId := ToggleLock(old(db.users)[userId])])
  {
    if userId !in db.users {
      return Err(NotFound(userId));
    }
    var user := ToggleLock(db.users[userId]);
    db.users := db.users[userId := user];
    r := Ok(UserMapper.ToResponseDto(user));
  }
}
