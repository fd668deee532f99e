/** Conversions from users to their public record. */
module UserMapper {
  import opened UserModel
  import opened Dtos

  function ToResponseDto(user: User): UserResponse
  {
    UserResponse(user.email, user.role)
  }

  /** `toListResponseDto`: the index loop appending one record per user. */
  method ToListResponseDto(users: seq<User>) returns (response: seq<UserResponse>)
    ensures |response| == |users|
    ensures forall i :: 0 <= i < |users| ==> response[i] == ToResponseDto(users[i])
  {
    response := [];
    var i := 0;
    while i < |users|
      invariant 0 <= i <= |users|
      invariant |response| == i
      invariant forall j :: 0 <= j < i ==> response[j] == ToResponseDto(users[j])
    {
      response := response + [ToResponseDto(users[i])];
      i := i + 1;
    }
  }

  /** The public record of a user is its email and its role, and nothing else. */
  lemma ResponseIsEmailAndRole(user: User, other: User)
    requires other.email == user.email && other.role == user.role
    ensures ToResponseDto(user) == UserResponse(user.email, user.role) == ToResponseDto(other)
  {
  }
}
