/**
 * The whole per-request access decision: the authentication filters, the
 * route rules of the filter chain, then the ownership guard of the handler
 * the request was dispatched to. Sessions are stateless, so the decision
 * is a function of this request, the user store and the clock alone.
 */
module AccessDecision {
  import opened Wrappers
  import opened UserEntity
  import opened Encoders
  import opened UserUtils
  import opened SecurityConfig
  import opened UserController
  import opened AuthenticationController
  import opened JwtUtils
  import UserService

  datatype HttpMethod = Get | Post | Put | Delete | OtherMethod

  /** The handler the router chose for the request, with its path id. */
  datatype Handler =
    | LoginHandler
    | UsersIndex
    | UsersShow(showId: UserId)
    | UsersCreate
    | UsersUpdate(updateId: UserId)
    | UsersDelete(deleteId: UserId)
    | OtherHandler

  datatype Request = Request(verb: HttpMethod, path: string, handler: Handler, credentials: Credentials)

  /** 401 (no or rejected credentials), 403 (the guard said no), the guard
      throwing, or the handler runs. */
  datatype Decision = Allow | Unauthorized | Forbidden | GuardFailed(cause: GuardError)

  /** The ownership guard a handler carries, if any: only update and delete
      carry one. */
  function GuardedId(h: Handler): (r: Option<UserId>)
    ensures r.Some? <==> h.UsersUpdate? || h.UsersDelete?
    ensures h.UsersUpdate? ==> r == Some(h.updateId)
    ensures h.UsersDelete? ==> r == Some(h.deleteId)
  {
    match h
    case UsersUpdate(id) => Some(id)
    case UsersDelete(id) => Some(id)
    case _ => None
  }

  /** Authorization once the principal is known: a rule demanding
      authentication without a principal gives 401; then a guarded handler
      runs only when the guard evaluates to true. */
  function Decide(path: string, handler: Handler, auth: Option<Authentication>, users: map<UserId, User>)
    : (d: Decision)
    ensures RequiredAccess(path) == Authenticated && !IsAuthenticated(auth) ==> d == Unauthorized
    ensures d == Unauthorized ==> RequiredAccess(path) == Authenticated && !IsAuthenticated(auth)
    ensures GuardedId(handler).None? ==> (d == Allow <==> d != Unauthorized)
    ensures GuardedId(handler).Some? ==>
      (d == Allow <==>
         (RequiredAccess(path) == PermitAll || IsAuthenticated(auth)) &&
         OwnerGuard(auth, users, GuardedId(handler).value) == Ok(true))
    ensures d == Forbidden ==> OwnerGuard(auth, users, GuardedId(handler).value) == Ok(false)
  {
    if RequiredAccess(path) == Authenticated && !IsAuthenticated(auth) then Unauthorized
    else match GuardedId(handler)
      case None => Allow
      case Some(id) =>
        match OwnerGuard(auth, users, id)
        case Ok(true) => Allow
        case Ok(false) => Forbidden
        case Err(e) => GuardFailed(e)
  }

  /** The filter chain from the request's credentials: credentials that
      are presented and rejected give 401 whatever the path; otherwise the
      principal they establish (if any) goes to `Decide`. */
  function Access(request: Request, users: map<UserId, User>, encoder: PasswordEncoder, codec: JwtCodec, now: int)
    : (d: Decision)
    ensures Authenticate(request.credentials, users, encoder, codec, now).Err? ==> d == Unauthorized
    ensures Authenticate(request.credentials, users, encoder, codec, now).Ok? ==>
      d == Decide(request.path, request.handler, Authenticate(request.credentials, users, encoder, codec, now).value, users)
  {
    match Authenticate(request.credentials, users, encoder, codec, now)
    case Err(_) => Unauthorized
    case Ok(auth) => Decide(request.path, request.handler, auth, users)
  }

  /** A public path with an unguarded handler is allowed with no principal,
      or with any principal. */
  lemma PublicNeedsNoPrincipal(path: string, handler: Handler, auth: Option<Authentication>, users: map<UserId, User>)
    requires IsPublicPath(path) && GuardedId(handler).None?
    ensures Decide(path, handler, auth, users) == Allow
  {
    PermitAllIffPublic(path);
  }

  /** Every other path, `POST /api/users` and the task routes included,
      needs an authenticated principal: without one the answer is 401
      before any handler or guard is looked at. */
  lemma ProtectedNeedsPrincipal(path: string, handler: Handler, auth: Option<Authentication>, users: map<UserId, User>)
    requires !IsPublicPath(path) && !IsAuthenticated(auth)
    ensures Decide(path, handler, auth, users) == Unauthorized
  {
    PermitAllIffPublic(path);
  }

  /** The show and create handlers add nothing to the route rule: with a
      principal they are allowed whoever the principal is. */
  lemma ShowAndCreateUnguarded(path: string, id: UserId, auth: Option<Authentication>, users: map<UserId, User>)
    requires IsAuthenticated(auth)
    ensures Decide(path, UsersShow(id), auth, users) == Allow
    ensures Decide(path, UsersCreate, auth, users) == Allow
    ensures Decide(path, UsersIndex, auth, users) == Allow
  {
  }

  /** A signed-in user stored under `own` (whose email no one else has) may
      update and delete exactly the user `own`; any other id is 403. */
  lemma OwnerOnly(path: string, auth: Option<Authentication>, s: UserService.Store, own: UserId, id: UserId)
    requires UserService.ValidStore(s)
    requires IsAuthenticated(auth) && HasEmail(s.users, own, auth.value.name)
    requires forall j :: HasEmail(s.users, j, auth.value.name) ==> j == own
    ensures Decide(path, UsersUpdate(id), auth, s.users) == (if id == own then Allow else Forbidden)
    ensures Decide(path, UsersDelete(id), auth, s.users) == (if id == own then Allow else Forbidden)
  {
    GuardIffOwnId(auth, s, own, id);
  }

  /** A user who logged in and presents the token as a bearer token may
      update their own record and no other. */
  lemma LoginThenUpdateOwn(s: UserService.Store, encoder: PasswordEncoder, codec: JwtCodec,
                           login: AuthRequest, now: int, later: int, path: string, own: UserId, id: UserId)
    requires UserService.ValidStore(s) && Authentic(codec)
    requires HasEmail(s.users, own, login.username)
    requires forall j :: HasEmail(s.users, j, login.username) ==> j == own
    requires Login(s.users, encoder, codec, login, now).Ok?
    requires codec.decode(Login(s.users, encoder, codec, login, now).value, later).Some?
    ensures Access(Request(Put, path, UsersUpdate(id), BearerToken(Login(s.users, encoder, codec, login, now).value)),
                   s.users, encoder, codec, later)
         == (if id == own then Allow else Forbidden)
  {
    LoginThenBearer(s.users, encoder, codec, login, now, later);
    OwnerOnly(path, Some(Authentication(login.username, true)), s, own, id);
  }

  /** The example of the ownership rule: user 5 may not touch user 6. */
  lemma FiveCannotUpdateSix(path: string, email: string, other: User)
    requires other.email != Some(email)
    ensures var users := map[5 := User(5, Some(email), None, None, None), 6 := other.(id := 6)];
      Decide(path, UsersUpdate(6), Some(Authentication(email, true)), users) == Forbidden &&
      Decide(path, UsersUpdate(5), Some(Authentication(email, true)), users) == Allow
  {
    var users := map[5 := User(5, Some(email), None, None, None), 6 := other.(id := 6)];
    assert forall j :: HasEmail(users, j, email) ==> j == 5;
    OwnerOnly(path, Some(Authentication(email, true)), UserService.Store(users, 7), 5, 6);
    OwnerOnly(path, Some(Authentication(email, true)), UserService.Store(users, 7), 5, 5);
  }
}
