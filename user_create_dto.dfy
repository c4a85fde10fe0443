/**
 * The body of `POST /api/users` and the Bean Validation constraints on it,
 * as the predicate `@Valid` checks before the handler runs.
 */
module UserCreateDto {
  import opened Wrappers

  datatype UserCreateDTO = UserCreateDTO(
    email: Option<string>,
    firstName: Option<string>,
    lastName: Option<string>,
    password: Option<string>)

  /** A character `String.trim` removes from either end: every character
      at or below the space, the control characters included. */
  predicate TrimmedAway(c: char)
  {
    c <= ' '
  }

  /** `@NotBlank`: not null, and something is left after `trim()`, i.e. some
      character lies above the space. */
  predicate NotBlank(s: Option<string>)
  {
    s.Some? && exists i :: 0 <= i < |s.value| && !TrimmedAway(s.value[i])
  }

  /** `@Size(min = 3)`: a null value passes; otherwise at least 3 characters. */
  predicate SizeAtLeast3(s: Option<string>)
  {
    s.None? || |s.value| >= 3
  }

  /** The position of the last `@` in `s`, if any. */
  function LastAt(s: string): (r: Option<nat>)
    ensures r.Some? ==> r.value < |s| && s[r.value] == '@' && '@' !in s[r.value + 1..]
    ensures r.None? ==> '@' !in s
  {
    if |s| == 0 then None
    else if s[|s| - 1] == '@' then Some(|s| - 1)
    else
      var r := LastAt(s[..|s| - 1]);
      assert s == s[..|s| - 1] + [s[|s| - 1]];
      r
  }

  /** `@Email`: a null or empty value passes; otherwise the text splits at
      its last `@` into a local part of 1 to 64 characters and a non-empty
      domain. */
  predicate EmailShaped(s: Option<string>)
  {
    s.None? || |s.value| == 0 ||
    match LastAt(s.value)
    case None => false
    case Some(at) => 1 <= at <= 64 && at + 1 < |s.value|
  }

  /** Every constraint on the DTO holds: `@NotNull @Email` on `email`,
      `@NotBlank @Size(min = 3)` on `password`, none on the names. */
  predicate Valid(dto: UserCreateDTO)
  {
    dto.email.Some? && EmailShaped(dto.email) && NotBlank(dto.password) && SizeAtLeast3(dto.password)
  }

  /** The names never decide validity. */
  lemma NamesUnconstrained(dto: UserCreateDTO, first: Option<string>, last: Option<string>)
    ensures Valid(dto) <==> Valid(dto.(firstName := first, lastName := last))
  {
  }

  /** A valid DTO has a non-null email and a password of at least three
      characters, one of which lies above the space. */
  lemma ValidPassword(dto: UserCreateDTO)
    requires Valid(dto)
    ensures dto.email.Some? && dto.password.Some? && |dto.password.value| >= 3
    ensures exists i :: 0 <= i < |dto.password.value| && !TrimmedAway(dto.password.value[i])
  {
  }

  /** `@Email` lets the empty string through, and `@NotNull` does not stop it
      either: an empty email is accepted. */
  lemma EmptyEmailAccepted()
    ensures Valid(UserCreateDTO(Some(""), None, None, Some("abc")))
  {
    assert !TrimmedAway("abc"[0]);
  }

  /** An address with nothing after its last `@` is rejected. */
  lemma DomainRequired(local: string)
    requires 1 <= |local| <= 64
    ensures !EmailShaped(Some(local + "@"))
  {
    assert LastAt(local + "@") == Some(|local|);
  }

  /** A password of spaces and control characters is rejected however long
      it is. */
  lemma BlankPasswordRejected(dto: UserCreateDTO)
    requires dto.password.Some?
    requires forall i :: 0 <= i < |dto.password.value| ==> TrimmedAway(dto.password.value[i])
    ensures !Valid(dto)
  {
  }

  /** Control characters count as blank: three NULs are rejected. */
  lemma ControlCharactersAreBlank()
    ensures !NotBlank(Some("\0\0\0"))
    ensures !Valid(UserCreateDTO(Some(""), None, None, Some("\0\0\0")))
  {
  }

  /** Unicode spaces above U+0020 are not trimmed: any run of three or more
      ideographic spaces makes a valid password. */
  lemma UnicodeSpacesAreNotBlank(n: nat)
    requires n >= 3
    ensures NotBlank(Some(seq(n, _ => '\U{3000}')))
    ensures Valid(UserCreateDTO(Some(""), None, None, Some(seq(n, _ => '\U{3000}'))))
  {
    assert !TrimmedAway(seq(n, _ => '\U{3000}')[0]);
  }
}
