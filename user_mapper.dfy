/**
 * The MapStruct user mapper: create DTO to entity, partial update of an
 * entity, entity to show DTO. `password` is copied into `passwordDigest`
 * as it is; the mapper itself hashes nothing.
 */
module UserMapper {
  import opened Wrappers
  import opened UserEntity
  import opened UserCreateDto
  import opened JsonNullableMapper

  /** The body of `PUT /api/users/{id}`: each field may be absent (undefined
      or a null reference), present with a value, or present as null. */
  datatype UserUpdateDTO = UserUpdateDTO(
    email: Option<JsonNullable<string>>,
    firstName: Option<JsonNullable<string>>,
    lastName: Option<JsonNullable<string>>,
    password: Option<JsonNullable<string>>)

  /** What the API shows of a user: never the password digest. */
  datatype UserShowDTO = UserShowDTO(
    id: UserId,
    email: Option<string>,
    firstName: Option<string>,
    lastName: Option<string>)

  /** The update that changes nothing: every field undefined. */
  const EmptyUpdate: UserUpdateDTO := UserUpdateDTO(None, None, None, None)

  /** `map(UserCreateDTO)`: a new, not yet saved user (id 0, the default of
      Java's `long`) with the DTO's fields and its password as digest. */
  function FromCreate(dto: UserCreateDTO): (u: User)
    ensures u.id == 0
    ensures u.passwordDigest == dto.password
    ensures u.email == dto.email && u.firstName == dto.firstName && u.lastName == dto.lastName
  {
    User(0, dto.email, dto.firstName, dto.lastName, dto.password)
  }

  /** `map(UserUpdateDTO, @MappingTarget User)`: each present field of the
      DTO overwrites the user's field (`password` overwrites
      `passwordDigest`); absent fields and the id are left untouched. */
  function ApplyUpdate(dto: UserUpdateDTO, u: User): (r: User)
    ensures r.id == u.id
    ensures r.email == (if IsPresent(dto.email) then Unwrap(dto.email) else u.email)
    ensures r.firstName == (if IsPresent(dto.firstName) then Unwrap(dto.firstName) else u.firstName)
    ensures r.lastName == (if IsPresent(dto.lastName) then Unwrap(dto.lastName) else u.lastName)
    ensures r.passwordDigest == (if IsPresent(dto.password) then Unwrap(dto.password) else u.passwordDigest)
  {
    u.(email := Patch(dto.email, u.email),
       firstName := Patch(dto.firstName, u.firstName),
       lastName := Patch(dto.lastName, u.lastName),
       passwordDigest := Patch(dto.password, u.passwordDigest))
  }

  /** `map(User)`: the user as the API shows it. */
  function Show(u: User): (s: UserShowDTO)
    ensures s.id == u.id && s.email == u.email && s.firstName == u.firstName && s.lastName == u.lastName
  {
    UserShowDTO(u.id, u.email, u.firstName, u.lastName)
  }

  /** An update with every field absent leaves the user as it was. */
  lemma EmptyUpdateIsIdentity(u: User)
    ensures ApplyUpdate(EmptyUpdate, u) == u
  {
  }

  /** Applying the same update twice is applying it once. */
  lemma ApplyUpdateIdempotent(dto: UserUpdateDTO, u: User)
    ensures ApplyUpdate(dto, ApplyUpdate(dto, u)) == ApplyUpdate(dto, u)
  {
  }

  /** Showing a user built from a create DTO gives back the DTO's email and
      names; two DTOs that differ only in password show the same. */
  lemma ShowFromCreate(dto: UserCreateDTO, password: Option<string>)
    ensures Show(FromCreate(dto)) == UserShowDTO(0, dto.email, dto.firstName, dto.lastName)
    ensures Show(FromCreate(dto.(password := password))) == Show(FromCreate(dto))
  {
  }

  /** An update that only sets the password changes only the digest, and
      the shown user is the same before and after. */
  lemma PasswordUpdateHidden(u: User, password: string)
    ensures ApplyUpdate(EmptyUpdate.(password := Wrap(Some(password))), u) == u.(passwordDigest := Some(password))
    ensures Show(ApplyUpdate(EmptyUpdate.(password := Wrap(Some(password))), u)) == Show(u)
  {
  }
}
