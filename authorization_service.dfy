/** `AuthorizationService`: the user lookup the authentication layer calls. */
module AuthorizationService {
  import opened Common
  import opened UserModel
  import opened Store

  function UnknownUser(username: Option<string>): Failure
  {
    UsernameNotFound("User not found with email: " + JavaString(username))
  }

  /** `loadUserByUsername`: the stored user holding that email, unchanged; otherwise a
      failure naming the username verbatim ("null" for a null username). As a
      function it cannot change the user store. */
  function LoadUserByUsername(users: map<nat, User>, username: Option<string>): (r: Result<User>)
    requires UniqueEmails(users)
    ensures r.Ok? <==> exists id :: id in users && Some(users[id].email) == username
    ensures r.Ok? ==> forall id :: id in users && Some(users[id].email) == username ==> r.value == users[id]
    ensures r.Err? ==> r.failure == UnknownUser(username)
  {
    match FindByEmail(users, username)
    case Some(id) => Ok(users[id])
    case None => Err(UnknownUser(username))
  }

  /** The failure message of a null or an empty username. */
  lemma UnknownUserMessages()
    ensures UnknownUser(None) == UsernameNotFound("User not found with email: null")
    ensures UnknownUser(Some("")) == UsernameNotFound("User not found with email: ")
  {
  }
}
