/**
 * The startup seeding of the default user: when no user has the default
 * email, one is created with the encoder's hash of the default password.
 */
module DataInitializer {
  import opened Wrappers
  import opened UserEntity
  import opened UserCreateDto
  import opened UserMapper
  import opened UserService
  import opened Encoders
  import opened SecurityConfig

  const SeedEmail: string := "hexlet@example.com"
  const SeedPassword: string := "qwerty"

  /** The create DTO of the default user: email, the encoded password, no
      names. */
  function SeedDTO(encoder: PasswordEncoder): (dto: UserCreateDTO)
    ensures dto.email == Some(SeedEmail) && dto.password == Some(encoder.encode(SeedPassword))
    ensures dto.firstName.None? && dto.lastName.None?
  {
    UserCreateDTO(Some(SeedEmail), None, None, Some(encoder.encode(SeedPassword)))
  }

  /** The store after `run`: unchanged when the default email is taken; one
      user more when it is free; and the repository's error when the email
      is held by several users. */
  function Seeded(s: Store, encoder: PasswordEncoder): (r: Result<Store, LookupError>)
    requires ValidStore(s)
    ensures r.Err? <==> FindByEmail(s.users, SeedEmail).Err?
    ensures r.Ok? ==> ValidStore(r.value)
    ensures (exists id :: HasEmail(s.users, id, SeedEmail)) && r.Ok? ==> r.value == s
    ensures (forall id :: !HasEmail(s.users, id, SeedEmail)) ==>
      && r.Ok?
      && r.value.users.Keys == s.users.Keys + {s.nextId}
      && (forall id :: id in s.users ==> r.value.users[id] == s.users[id])
      && r.value.users[s.nextId] == User(s.nextId, Some(SeedEmail), None, None, Some(encoder.encode(SeedPassword)))
  {
    match FindByEmail(s.users, SeedEmail)
    case Err(e) => Err(e)
    case Ok(Some(_)) => Ok(s)
    case Ok(None) => Ok(Insert(s, FromCreate(SeedDTO(encoder))))
  }

  /** After seeding, exactly one user has the default email. */
  lemma SeededHasOneDefaultUser(s: Store, encoder: PasswordEncoder)
    requires ValidStore(s) && Seeded(s, encoder).Ok?
    ensures exists id :: HasEmail(Seeded(s, encoder).value.users, id, SeedEmail)
    ensures FindByEmail(Seeded(s, encoder).value.users, SeedEmail).Ok?
    ensures FindByEmail(Seeded(s, encoder).value.users, SeedEmail).value.Some?
  {
    var t := Seeded(s, encoder).value;
    if forall id :: !HasEmail(s.users, id, SeedEmail) {
      assert HasEmail(t.users, s.nextId, SeedEmail);
      assert forall j :: HasEmail(t.users, j, SeedEmail) ==> j == s.nextId;
      FindByEmailUnique(t.users, SeedEmail, s.nextId);
    } else {
      assert t == s;
    }
  }

  /** Running the initializer twice leaves the store it leaves once. */
  lemma SeedIdempotent(s: Store, encoder: PasswordEncoder)
    requires ValidStore(s) && Seeded(s, encoder).Ok?
    ensures Seeded(Seeded(s, encoder).value, encoder) == Seeded(s, encoder)
  {
    SeededHasOneDefaultUser(s, encoder);
  }

  /** The seeded user signs in with the default password, as long as the
      encoder recognises its own hashes: the stored digest is the hash, and
      not the password itself. */
  lemma SeededUserSignsIn(s: Store, encoder: PasswordEncoder)
    requires ValidStore(s) && Recognizes(encoder)
    requires forall id :: !HasEmail(s.users, id, SeedEmail)
    ensures Seeded(s, encoder).Ok?
    ensures CheckPassword(Seeded(s, encoder).value.users, encoder, SeedEmail, SeedPassword).Ok?
  {
    var t := Seeded(s, encoder).value;
    SeededHasOneDefaultUser(s, encoder);
    assert HasEmail(t.users, s.nextId, SeedEmail);
    var found := FindByEmail(t.users, SeedEmail).value.value;
    assert found == t.users[s.nextId] by {
      var k :| HasEmail(t.users, k, SeedEmail) && found == t.users[k] &&
        forall j :: HasEmail(t.users, j, SeedEmail) ==> j == k;
    }
    assert encoder.matches(SeedPassword, encoder.encode(SeedPassword));
  }

  /** `run`: the seeding, on the live service. */
  method Run(svc: UserService, encoder: PasswordEncoder) returns (r: Result<(), LookupError>)
    requires svc.Valid()
    modifies svc
    ensures svc.Valid()
    ensures r.Err? <==> Seeded(old(svc.State()), encoder).Err?
    ensures r.Err? ==> svc.State() == old(svc.State()) && r.error == Seeded(old(svc.State()), encoder).error
    ensures r.Ok? ==> svc.State() == Seeded(old(svc.State()), encoder).value
  {
    var found := FindByEmail(svc.users, SeedEmail);
    match found
    case Err(e) => r := Err(e);
    case Ok(existing) =>
      if existing.None? {
        var _ := svc.Create(SeedDTO(encoder));
      }
      r := Ok(());
  }
}
