/**
 * The stored user record and the repository's `findByEmail` query.
 *
 * The user store is one `map` from id to `User`: the service, the
 * initializer and the current-user lookup all read the same repository.
 */
module UserEntity {
  import opened Wrappers

  type UserId = int

  /** A persisted user. Every field but the id is a nullable Java `String`. */
  datatype User = User(
    id: UserId,
    email: Option<string>,
    firstName: Option<string>,
    lastName: Option<string>,
    passwordDigest: Option<string>)

  /** `findByEmail` declares an `Optional` result: more than one match is an
      error of the repository, not a choice among the matches. */
  datatype LookupError = NonUniqueResult

  /** The stored user under `id` has the email `email`. */
  predicate HasEmail(users: map<UserId, User>, id: UserId, email: string)
  {
    id in users && users[id].email == Some(email)
  }

  /** `userRepository.findByEmail(email)`: empty when no user has that email,
      the user when exactly one has it, an error when several have it. */
  function FindByEmail(users: map<UserId, User>, email: string): (r: Result<Option<User>, LookupError>)
    ensures r == Ok(None) <==> forall id :: !HasEmail(users, id, email)
    ensures r.Err? <==> exists i, j :: HasEmail(users, i, email) && HasEmail(users, j, email) && i != j
    ensures r.Ok? && r.value.Some? ==>
      exists id :: HasEmail(users, id, email) && r.value.value == users[id] &&
        forall j :: HasEmail(users, j, email) ==> j == id
  {
    if !(exists id :: id in users && HasEmail(users, id, email)) then Ok(None)
    else
      var id :| id in users && HasEmail(users, id, email);
      if exists j :: j in users && HasEmail(users, j, email) && j != id then Err(NonUniqueResult)
      else Ok(Some(users[id]))
  }

  /** If exactly one stored user has the email, `findByEmail` returns it. */
  lemma FindByEmailUnique(users: map<UserId, User>, email: string, id: UserId)
    requires HasEmail(users, id, email)
    requires forall j :: HasEmail(users, j, email) ==> j == id
    ensures FindByEmail(users, email) == Ok(Some(users[id]))
  {
  }
}
