/** `AuthenticationService.register`: signing up. */
module AuthenticationService {
  import opened Common
  import opened Entities
  import opened Dtos
  import opened UserModel
  import opened Store
  import opened PasswordEncoding

  function AlreadyExists(email: string): Failure
  {
    Business("User: " + email + " already exists", CONFLICT)
  }

  /** `register`: refused when the email is held; otherwise a user built with that
      email, the encoded password and the role is stored under a fresh id, enabled and
      not locked, and its email and role are returned. */
  method Register(db: Db, encoder: PasswordEncoder, request: RegisterRequest) returns (r: Result<UserResponse>)
    requires db.Valid()
    modifies db
    ensures db.Valid()
    ensures FindByEmail(old(db.users), Some(request.email)).Some? ==>
      r == Err(AlreadyExists(request.email)) && db.Snapshot() == old(db.Snapshot())
    ensures FindByEmail(old(db.users), Some(request.email)).None? ==>
      r == Ok(UserResponse(request.email, request.role)) &&
      db.Snapshot() == old(db.Snapshot()).(
        users := old(db.users)[old(db.nextId) := Build(request.email, encoder.encode(request.password), request.role)],
        nextId := old(db.nextId) + 1)
    ensures r.Ok? ==>
      var u := db.users[old(db.nextId)];
      IsEnabled(u) && IsAccountNonLocked(u) && GetUsername(u) == request.email &&
      FindByEmail(db.users, Some(request.email)) == Some(old(db.nextId))
  {
    if FindByEmail(db.users, Some(request.email)).Some? {
      return Err(AlreadyExists(request.email));
    }
    var user := Build(request.email, encoder.encode(request.password), request.role);
    var id := db.nextId;
    db.users := db.users[id := user];
    db.nextId := db.nextId + 1;
    r := Ok(UserResponse(user.email, user.role));
  }
}
