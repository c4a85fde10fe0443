/**
 * Resolution of the signed-in user. The thread-local security context is
 * an explicit parameter: `None` when the context holds no authentication.
 */
module UserUtils {
  import opened Wrappers
  import opened UserEntity

  /** The authentication in the security context: the principal's name and
      whether it is marked authenticated. */
  datatype Authentication = Authentication(name: string, authenticated: bool)

  /** Why `getCurrentUser` throws: `orElseThrow` on an empty result, or the
      repository's own error. */
  datatype CurrentUserError = NoSuchElement | Repository(cause: LookupError)

  /** `isAuthenticated()`. */
  predicate IsAuthenticated(auth: Option<Authentication>)
  {
    auth.Some? && auth.value.authenticated
  }

  /** `getCurrentUser()`: null without an authenticated principal, otherwise
      the stored user whose email is the principal's name, and an error
      when there is no such user. */
  function GetCurrentUser(auth: Option<Authentication>, users: map<UserId, User>): (r: Result<Option<User>, CurrentUserError>)
    ensures r == Ok(None) <==> !IsAuthenticated(auth)
    ensures r.Ok? && r.value.Some? ==>
      IsAuthenticated(auth) && r.value.value.email == Some(auth.value.name) && r.value.value in users.Values
    ensures IsAuthenticated(auth) && (forall id :: !HasEmail(users, id, auth.value.name)) ==> r == Err(NoSuchElement)
    ensures IsAuthenticated(auth) ==> (r.Ok? <==> FindByEmail(users, auth.value.name).Ok? && FindByEmail(users, auth.value.name).value.Some?)
  {
    if auth.None? || !auth.value.authenticated then Ok(None)
    else
      match FindByEmail(users, auth.value.name)
      case Ok(Some(u)) => Ok(Some(u))
      case Ok(None) => Err(NoSuchElement)
      case Err(e) => Err(Repository(e))
  }

  /** The stored user with the principal's email, when it is the only one,
      is the current user. */
  lemma CurrentUserIsStoredUser(auth: Option<Authentication>, users: map<UserId, User>, id: UserId)
    requires IsAuthenticated(auth)
    requires HasEmail(users, id, auth.value.name)
    requires forall j :: HasEmail(users, j, auth.value.name) ==> j == id
    ensures GetCurrentUser(auth, users) == Ok(Some(users[id]))
  {
    FindByEmailUnique(users, auth.value.name, id);
  }
}
