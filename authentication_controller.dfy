/**
 * `POST /api/login`: authenticate the username and password, then issue a
 * token for the username.
 */
module AuthenticationController {
  import opened Wrappers
  import opened UserEntity
  import opened Encoders
  import opened JwtUtils
  import opened SecurityConfig
  import opened UserUtils

  /** The login request body. */
  datatype AuthRequest = AuthRequest(username: string, password: string)

  /** `create(authRequest)`: the provider's check, and only when it passes a
      token whose subject is the requested username; a failed check
      propagates and no token is made. The password reaches only the check. */
  function Login(users: map<UserId, User>, encoder: PasswordEncoder, codec: JwtCodec,
                 request: AuthRequest, now: int): (r: Result<string, AuthError>)
    ensures r.Ok? <==> CheckPassword(users, encoder, request.username, request.password).Ok?
    ensures r.Ok? ==> r.value == GenerateToken(codec, request.username, now)
    ensures r.Err? ==> r.error == CheckPassword(users, encoder, request.username, request.password).error
  {
    match CheckPassword(users, encoder, request.username, request.password)
    case Err(e) => Err(e)
    case Ok(_) => Ok(GenerateToken(codec, request.username, now))
  }

  /** Two successful logins of the same user at the same time give the same
      token whatever the passwords were: the token does not depend on them. */
  lemma TokenIndependentOfPassword(users: map<UserId, User>, encoder: PasswordEncoder, codec: JwtCodec,
                                   username: string, p1: string, p2: string, now: int)
    requires Login(users, encoder, codec, AuthRequest(username, p1), now).Ok?
    requires Login(users, encoder, codec, AuthRequest(username, p2), now).Ok?
    ensures Login(users, encoder, codec, AuthRequest(username, p1), now)
         == Login(users, encoder, codec, AuthRequest(username, p2), now)
  {
  }

  /** A token from a successful login, presented later as a bearer token
      that the decoder accepts, authenticates exactly the user who logged in. */
  lemma LoginThenBearer(users: map<UserId, User>, encoder: PasswordEncoder, codec: JwtCodec,
                        request: AuthRequest, now: int, later: int)
    requires Authentic(codec)
    requires Login(users, encoder, codec, request, now).Ok?
    requires codec.decode(Login(users, encoder, codec, request, now).value, later).Some?
    ensures Authenticate(BearerToken(Login(users, encoder, codec, request, now).value), users, encoder, codec, later)
         == Ok(Some(Authentication(request.username, true)))
  {
    IssuedTokenDecodes(codec, request.username, now, later);
  }

  /** A user whose stored digest is the encoder's hash of the password logs
      in with it, provided no other user has the same email. */
  lemma StoredHashLogsIn(users: map<UserId, User>, encoder: PasswordEncoder, codec: JwtCodec,
                         id: UserId, password: string, now: int)
    requires Recognizes(encoder)
    requires id in users && users[id].email.Some?
    requires users[id].passwordDigest == Some(encoder.encode(password))
    requires forall j :: HasEmail(users, j, users[id].email.value) ==> j == id
    ensures Login(users, encoder, codec, AuthRequest(users[id].email.value, password), now)
         == Ok(GenerateToken(codec, users[id].email.value, now))
  {
    FindByEmailUnique(users, users[id].email.value, id);
    assert encoder.matches(password, encoder.encode(password));
  }
}
