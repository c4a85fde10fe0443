/**
 * The `/api/users` handlers. Each delegates to the user service; the only
 * logic of their own is the ownership guard on update and delete, the
 * validation of the create body and the `X-Total-Count` header.
 */
module UserController {
  import opened Wrappers
  import opened UserEntity
  import opened UserCreateDto
  import opened UserMapper
  import opened UserUtils
  import opened UserService

  /** Why the guard expression throws instead of giving a boolean: the
      current-user lookup failed, or it gave null and `.getId()` was
      called on it. */
  datatype GuardError = CurrentUserLookup(cause: CurrentUserError) | NullCurrentUser

  /** `@userUtils.getCurrentUser().getId() == #id`. */
  function OwnerGuard(auth: Option<Authentication>, users: map<UserId, User>, id: UserId): (r: Result<bool, GuardError>)
    ensures r == Ok(true) <==>
      GetCurrentUser(auth, users).Ok? && GetCurrentUser(auth, users).value.Some? &&
      GetCurrentUser(auth, users).value.value.id == id
    ensures r.Err? <==> !(GetCurrentUser(auth, users).Ok? && GetCurrentUser(auth, users).value.Some?)
    ensures !IsAuthenticated(auth) ==> r == Err(NullCurrentUser)
  {
    match GetCurrentUser(auth, users)
    case Err(e) => Err(CurrentUserLookup(e))
    case Ok(None) => Err(NullCurrentUser)
    case Ok(Some(u)) => Ok(u.id == id)
  }

  /** When the guard passes, the id names a stored user, the signed-in one. */
  lemma GuardPassedMeansOwnUser(auth: Option<Authentication>, s: Store, id: UserId)
    requires ValidStore(s)
    requires OwnerGuard(auth, s.users, id) == Ok(true)
    ensures IsAuthenticated(auth) && HasEmail(s.users, id, auth.value.name)
  {
    var u := GetCurrentUser(auth, s.users).value.value;
    var k :| k in s.users && s.users[k] == u;
    assert k == id;
  }

  /** For a signed-in user stored under `own`, whose email no other user
      has, the guard passes exactly for `own`. */
  lemma GuardIffOwnId(auth: Option<Authentication>, s: Store, own: UserId, id: UserId)
    requires ValidStore(s)
    requires IsAuthenticated(auth) && HasEmail(s.users, own, auth.value.name)
    requires forall j :: HasEmail(s.users, j, auth.value.name) ==> j == own
    ensures OwnerGuard(auth, s.users, id) == Ok(own == id)
  {
    CurrentUserIsStoredUser(auth, s.users, own);
  }

  /** The decimal digits of `n`, as `String.valueOf` writes a count. */
  function DecimalString(n: nat): (s: string)
    ensures |s| >= 1
    ensures forall i :: 0 <= i < |s| ==> '0' <= s[i] <= '9'
    decreases n
  {
    if n < 10 then [Digit(n)] else DecimalString(n / 10) + [Digit(n % 10)]
  }

  function Digit(d: nat): (c: char)
    requires d < 10
    ensures '0' <= c <= '9' && c as int - '0' as int == d
  {
    (d + '0' as int) as char
  }

  /** Reading a string of decimal digits back as a number. */
  function ParseDecimal(s: string): nat
    requires forall i :: 0 <= i < |s| ==> '0' <= s[i] <= '9'
  {
    if |s| == 0 then 0
    else 10 * ParseDecimal(s[..|s| - 1]) + (s[|s| - 1] as int - '0' as int)
  }

  /** The header text reads back as the count it was written from. */
  lemma {:induction false} ParseDecimalString(n: nat)
    ensures ParseDecimal(DecimalString(n)) == n
    decreases n
  {
    var s := DecimalString(n);
    if n >= 10 {
      ParseDecimalString(n / 10);
      assert s[..|s| - 1] == DecimalString(n / 10);
    }
  }

  /** The answer to `GET /api/users`: status, `X-Total-Count`, body. */
  datatype Listing = Listing(status: int, totalCount: string, body: seq<UserShowDTO>)

  /** The answer to the other handlers: success with a status and a body,
      `@Valid` rejecting the body (400), the guard evaluating to false
      (403), the guard throwing, or the service throwing. */
  datatype Response<T> =
    | Success(status: int, body: T)
    | BadRequest
    | AccessDenied
    | GuardFailure(guardError: GuardError)
    | ServiceFailure(serviceError: ServiceError)

  /** `getAll()`: 200, every stored user once, and a count header equal to
      the number of users in the body. */
  method GetAll(svc: UserService) returns (r: Listing)
    requires svc.Valid()
    ensures r.status == 200
    ensures (forall i :: 0 <= i < |r.totalCount| ==> '0' <= r.totalCount[i] <= '9')
    ensures ParseDecimal(r.totalCount) == |r.body| == |svc.users|
    ensures forall i :: 0 <= i < |r.body| ==> r.body[i].id in svc.users && r.body[i] == Show(svc.users[r.body[i].id])
    ensures forall id :: id in svc.users ==> Show(svc.users[id]) in r.body
  {
    var result := svc.GetAll();
    ParseDecimalString(|result|);
    r := Listing(200, DecimalString(|result|), result);
  }

  /** `get(id)`: 200 and the user, with no ownership condition; the
      service's not-found otherwise. */
  method Get(svc: UserService, id: UserId) returns (r: Response<UserShowDTO>)
    requires svc.Valid()
    ensures id in svc.users ==> r == Success(200, Show(svc.users[id]))
    ensures id !in svc.users ==> r == ServiceFailure(UserNotFound(id))
  {
    var found := svc.Get(id);
    match found
    case Ok(shown) => r := Success(200, shown);
    case Err(e) => r := ServiceFailure(e);
  }

  /** `create(dto)`: a body that fails validation is rejected with nothing
      stored; otherwise 201 and the saved user, with no ownership
      condition. */
  method Create(svc: UserService, dto: UserCreateDTO) returns (r: Response<UserShowDTO>)
    requires svc.Valid()
    modifies svc
    ensures svc.Valid()
    ensures !Valid(dto) ==> r == BadRequest && svc.State() == old(svc.State())
    ensures Valid(dto) ==>
      && svc.State() == Insert(old(svc.State()), FromCreate(dto))
      && r == Success(201, Show(svc.users[old(svc.nextId)]))
  {
    if !Valid(dto) {
      return BadRequest;
    }
    var shown := svc.Create(dto);
    r := Success(201, shown);
  }

  /** `update(id, dto)`: runs only when the signed-in user's id is `id`;
      otherwise access is denied (or the guard throws) and the store is
      unchanged. A passing guard means the user exists, so an update that
      runs always succeeds. */
  method Update(svc: UserService, auth: Option<Authentication>, id: UserId, dto: UserUpdateDTO)
    returns (r: Response<UserShowDTO>)
    requires svc.Valid()
    modifies svc
    ensures svc.Valid()
    ensures OwnerGuard(auth, old(svc.users), id) == Ok(false) ==> r == AccessDenied && svc.State() == old(svc.State())
    ensures OwnerGuard(auth, old(svc.users), id).Err? ==>
      r == GuardFailure(OwnerGuard(auth, old(svc.users), id).error) && svc.State() == old(svc.State())
    ensures OwnerGuard(auth, old(svc.users), id) == Ok(true) ==>
      && id in old(svc.users)
      && svc.users == old(svc.users)[id := ApplyUpdate(dto, old(svc.users)[id])]
      && svc.nextId == old(svc.nextId)
      && r == Success(200, Show(svc.users[id]))
  {
    var guard := OwnerGuard(auth, svc.users, id);
    match guard
    case Err(e) => r := GuardFailure(e);
    case Ok(allowed) =>
      if !allowed {
        r := AccessDenied;
      } else {
        GuardPassedMeansOwnUser(auth, svc.State(), id);
        var updated := svc.Update(id, dto);
        r := Success(200, updated.value);
      }
  }

  /** `delete(id)`: runs only when the signed-in user's id is `id`, and
      then removes that user alone and answers 204; otherwise the store is
      unchanged. */
  method Delete(svc: UserService, auth: Option<Authentication>, id: UserId) returns (r: Response<()>)
    requires svc.Valid()
    modifies svc
    ensures svc.Valid()
    ensures OwnerGuard(auth, old(svc.users), id) == Ok(false) ==> r == AccessDenied && svc.State() == old(svc.State())
    ensures OwnerGuard(auth, old(svc.users), id).Err? ==>
      r == GuardFailure(OwnerGuard(auth, old(svc.users), id).error) && svc.State() == old(svc.State())
    ensures OwnerGuard(auth, old(svc.users), id) == Ok(true) ==>
      && id in old(svc.users)
      && svc.users == old(svc.users) - {id}
      && svc.nextId == old(svc.nextId)
      && r == Success(204, ())
  {
    var guard := OwnerGuard(auth, svc.users, id);
    match guard
    case Err(e) => r := GuardFailure(e);
    case Ok(allowed) =>
      if !allowed {
        r := AccessDenied;
      } else {
        GuardPassedMeansOwnUser(auth, svc.State(), id);
        svc.Delete(id);
        r := Success(204, ());
      }
  }
}
