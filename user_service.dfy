/**
 * The user service together with the user repository it writes through:
 * one store of users by id, with database-assigned identities.
 */
module UserService {
  import opened Wrappers
  import opened UserEntity
  import opened UserCreateDto
  import opened UserMapper
  import Sets

  /** Why a service call fails. `UserNotFound` and `UsernameNotFound` are the
      two `UsernameNotFoundException` messages; `Unsupported` is
      `UnsupportedOperationException`. */
  datatype ServiceError =
    | UserNotFound(id: UserId)
    | UsernameNotFound
    | Lookup(cause: LookupError)
    | Unsupported(message: string)

  /** The repository's contents: the users by id and the next identity value. */
  datatype Store = Store(users: map<UserId, User>, nextId: UserId)

  /** Identities start at 1, every stored id is below the next one, and each
      user is stored under its own id. */
  predicate ValidStore(s: Store)
  {
    1 <= s.nextId &&
    forall id :: id in s.users ==> 1 <= id < s.nextId && s.users[id].id == id
  }

  /** `save` of a new user: the database gives it the next identity value,
      and no stored user changes. */
  function Insert(s: Store, u: User): (t: Store)
    requires ValidStore(s)
    ensures ValidStore(t)
    ensures s.nextId !in s.users && t.users.Keys == s.users.Keys + {s.nextId}
    ensures t.users[s.nextId] == u.(id := s.nextId)
    ensures forall id :: id in s.users ==> t.users[id] == s.users[id]
  {
    Store(s.users[s.nextId := u.(id := s.nextId)], s.nextId + 1)
  }

  /** `loadUserByUsername(username)`: the user whose email is `username`,
      or "User not found". */
  function LoadUserByUsername(users: map<UserId, User>, username: string): (r: Result<User, ServiceError>)
    ensures r.Ok? <==> FindByEmail(users, username).Ok? && FindByEmail(users, username).value.Some?
    ensures r.Ok? ==> r.value.email == Some(username) && r.value in users.Values
    ensures r == Err(UsernameNotFound) <==> forall id :: !HasEmail(users, id, username)
  {
    match FindByEmail(users, username)
    case Ok(Some(u)) => Ok(u)
    case Ok(None) => Err(UsernameNotFound)
    case Err(e) => Err(Lookup(e))
  }

  /** The `UserDetailsManager` operations the service declares but does not
      implement. */
  datatype DetailsManagerCall =
    | CreateUser
    | UpdateUser
    | DeleteUser(username: string)
    | ChangePassword(oldPassword: string, newPassword: string)
    | UserExists(username: string)

  class UserService {
    var users: map<UserId, User>
    var nextId: UserId

    function State(): Store
      reads this
    {
      Store(users, nextId)
    }

    ghost predicate Valid()
      reads this
    {
      ValidStore(State())
    }

    /** An empty repository. */
    constructor ()
      ensures Valid() && users == map[] && nextId == 1
    {
      users := map[];
      nextId := 1;
    }

    /** `create(dto)`: stores the mapped user under a fresh id and returns
        how the saved record is shown. */
    method Create(dto: UserCreateDTO) returns (shown: UserShowDTO)
      requires Valid()
      modifies this
      ensures Valid()
      ensures State() == Insert(old(State()), FromCreate(dto))
      ensures shown == Show(users[old(nextId)]) && shown.id == old(nextId)
    {
      var id := nextId;
      var s := Insert(State(), FromCreate(dto));
      users, nextId := s.users, s.nextId;
      shown := Show(users[id]);
    }

    /** `getAll()`: one shown DTO per stored user, in no particular order. */
    method GetAll() returns (all: seq<UserShowDTO>)
      requires Valid()
      ensures |all| == |users|
      ensures forall i :: 0 <= i < |all| ==> all[i].id in users && all[i] == Show(users[all[i].id])
      ensures forall id :: id in users ==> Show(users[id]) in all
      ensures forall i, j :: 0 <= i < j < |all| ==> all[i].id != all[j].id
    {
      all := [];
      var rest := users.Keys;
      while rest != {}
        invariant rest <= users.Keys
        invariant |all| + |rest| == |users|
        invariant forall i :: 0 <= i < |all| ==> all[i].id in users.Keys - rest && all[i] == Show(users[all[i].id])
        invariant forall id :: id in users.Keys - rest ==> Show(users[id]) in all
        invariant forall i, j :: 0 <= i < j < |all| ==> all[i].id != all[j].id
        decreases rest
      {
        var id := Sets.Pick(rest);
        all := all + [Show(users[id])];
        rest := rest - {id};
      }
    }

    /** `get(id)`: the shown user, or not-found when no user has that id. */
    method Get(id: UserId) returns (r: Result<UserShowDTO, ServiceError>)
      requires Valid()
      ensures r.Ok? <==> id in users
      ensures r.Ok? ==> r.value == Show(users[id]) && r.value.id == id
      ensures r.Err? ==> r.error == UserNotFound(id)
    {
      if id in users {
        r := Ok(Show(users[id]));
      } else {
        r := Err(UserNotFound(id));
      }
    }

    /** `update(id, dto)`: applies the DTO to the user with that id and saves
        it; not-found, with nothing changed, when there is none. */
    method Update(id: UserId, dto: UserUpdateDTO) returns (r: Result<UserShowDTO, ServiceError>)
      requires Valid()
      modifies this
      ensures Valid() && nextId == old(nextId)
      ensures r.Ok? <==> id in old(users)
      ensures id !in old(users) ==> r == Err(UserNotFound(id)) && users == old(users)
      ensures id in old(users) ==>
        users == old(users)[id := ApplyUpdate(dto, old(users)[id])] && r == Ok(Show(users[id]))
      ensures users.Keys == old(users).Keys
      ensures forall j :: j in old(users) && j != id ==> users[j] == old(users)[j]
    {
      if id !in users {
        return Err(UserNotFound(id));
      }
      var updated := ApplyUpdate(dto, users[id]);
      users := users[id := updated];
      r := Ok(Show(updated));
    }

    /** `delete(id)`: removes the user with that id if there is one; no
        other user changes. */
    method Delete(id: UserId)
      requires Valid()
      modifies this
      ensures Valid() && nextId == old(nextId)
      ensures users == old(users) - {id}
      ensures forall j :: j in old(users) && j != id ==> j in users && users[j] == old(users)[j]
    {
      users := users - {id};
    }

    /** `createUser`, `updateUser`, `deleteUser`, `changePassword` and
        `userExists`: every call throws, and nothing is read or written. */
    method Manage(call: DetailsManagerCall) returns (r: Result<bool, ServiceError>)
      ensures r.Err? && r.error.Unsupported?
      ensures r.error.message == "Unimplemented method '" + OperationName(call) + "'"
    {
      r := Err(Unsupported("Unimplemented method '" + OperationName(call) + "'"));
    }
  }

  /** The name each unimplemented operation reports; `userExists` reports
      itself as `userExist`. */
  function OperationName(call: DetailsManagerCall): string
  {
    match call
    case CreateUser => "createUser"
    case UpdateUser => "updateUser"
    case DeleteUser(_) => "deleteUser"
    case ChangePassword(_, _) => "changePassword"
    case UserExists(_) => "userExist"
  }
}
