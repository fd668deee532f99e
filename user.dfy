/** The `User` entity and the account checks it exposes to the authentication layer. */
module UserModel {
  import opened Common
  import opened UserRoles

  /** A stored user; `role` is absent when the role was given as null. */
  datatype User = User(email: string, password: string, role: Option<UserRole>, enabled: bool, locked: bool)

  /** `User.builder()...build()`: the builder defaults are enabled and not locked. */
  function Build(email: string, password: string, role: Option<UserRole>): (u: User)
    ensures u.email == email && u.password == password && u.role == role
    ensures IsEnabled(u) && IsAccountNonLocked(u)
  {
    User(email, password, role, true, false)
  }

  /** `getAuthorities()`: an ADMIN holds ROLE_ADMIN then ROLE_USER; every other
      role, and a missing role, holds ROLE_USER alone. */
  function GetAuthorities(u: User): (r: seq<string>)
    ensures |r| == if u.role == Some(ADMIN) then 2 else 1
    ensures r[|r| - 1] == "ROLE_USER"
    ensures "ROLE_ADMIN" in r <==> u.role == Some(ADMIN)
  {
    if u.role == Some(ADMIN) then ["ROLE_ADMIN", "ROLE_USER"] else ["ROLE_USER"]
  }

  /** `getUsername()`: users sign in with their email. */
  function GetUsername(u: User): string
  {
    u.email
  }

  predicate IsAccountNonExpired(u: User)
  {
    true
  }

  predicate IsAccountNonLocked(u: User)
  {
    !u.locked
  }

  predicate IsCredentialsNonExpired(u: User)
  {
    true
  }

  predicate IsEnabled(u: User)
  {
    u.enabled
  }

  /** What the authentication layer reads from any user: the username is the
      email, accounts and credentials never expire, the account is usable
      exactly when it is enabled and not locked. */
  lemma AccountChecks(u: User)
    ensures GetUsername(u) == u.email
    ensures IsAccountNonExpired(u) && IsCredentialsNonExpired(u)
    ensures IsAccountNonLocked(u) <==> !u.locked
    ensures IsEnabled(u) <==> u.enabled
  {
  }
}
