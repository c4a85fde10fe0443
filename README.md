# Task tracker access control, user store and task search, in Dafny

A model of the core of a Spring Boot task tracker (`hexlet.code`) with
proofs about it. The model covers three parts.

- **Request access and login.** The route rules of the security filter chain
  and the two kinds of credentials it accepts (a bearer JWT, HTTP Basic).
  The provider's username/password check goes through the user service and
  the password encoder. Update and delete of a user carry an ownership guard.
  Current-user resolution, the login endpoint and the claims of issued
  tokens are included. `AccessDecision.Access` composes all of it into one
  decision per request. That decision depends only on the request, the user
  store and the clock.
- **The user store.** The user service is a class holding a map from id to
  user and the next identity value. It has create, list, get, update and
  delete, `loadUserByUsername`, and the unimplemented
  `UserDetailsManager` operations. Around it sit the user mapper, the
  validation of the create body and the startup seeding of the default
  user.
- **Tasks.** The task entity and its constraints, the search specification
  with its four criteria combined by AND, and the task mapper with its
  status, label and assignee lookups. The three-state `JsonNullable`
  wrapper of partial updates is shared with the user mapper.

Java's `null` is `Option.None`. A thrown exception is `Result.Err`. The
repositories are maps. BCrypt and the RSA JWT encoder and decoder are
function-valued parameters (`Encoders.PasswordEncoder`,
`Encoders.JwtCodec`). Two ghost predicates state the only facts the
proofs assume of them. `Encoders.Authentic`: a decoder that accepts an
encoded token reads back the signed claims. `Encoders.Recognizes`: a
password matches its own hash. The clock is an integer number of seconds
passed in as `now`. The security context is an explicit
`Option<Authentication>`.

Some facts about the code that the model keeps:

- Bearer tokens go to the library's decoder with no validator added, so
  the issuer claim is not checked.
- The public paths are exactly the four rules at `SecurityConfig.java:63-66`.
- The ownership guard throws when the current-user lookup fails. That is a
  separate outcome (`GuardFailed`), not a 403.
- Credentials that are presented and rejected give 401 even on a public
  path, because the authentication filters run before the rules.
- The user service declares five `UserDetailsManager` operations that
  always throw; they are modelled (`UserService.UserService.Manage`).

## Model

| member | source | states |
|---|---|---|
| JsonNullableMapper.Wrap | src/main/java/hexlet/code/mapper/JsonNullableMapper.java:18-20 | `wrap(x)` is always present, even around null, and unwrapping it gives back `x` |
| JsonNullableMapper.Unwrap | src/main/java/hexlet/code/mapper/JsonNullableMapper.java:30-32 | null for a null reference and for an undefined wrapper; otherwise the wrapper is exactly `of` of the result |
| JsonNullableMapper.IsPresent | src/main/java/hexlet/code/mapper/JsonNullableMapper.java:41-44 | `isPresent`: a non-null reference to a defined wrapper |
| JsonNullableMapper.Patch | src/main/java/hexlet/code/mapper/UserMapper.java:11 | one field of a partial update: an absent source keeps the target, a present one (even present null) replaces it |
| JsonNullableMapper.IsPresentIffWrapped | src/main/java/hexlet/code/mapper/JsonNullableMapper.java:41-44 | `isPresent` holds exactly of the wrappers `wrap` produces: false for null and undefined, true for every `of(x)` |
| JsonNullableMapper.PatchIdempotent | src/main/java/hexlet/code/mapper/UserMapper.java:11 | applying the same partial field update twice is applying it once |
| UserEntity.FindByEmail | src/main/java/hexlet/code/util/UserUtils.java:34 | empty exactly when no stored user has the email; an error exactly when two distinct users have it; otherwise the one user that has it |
| UserEntity.FindByEmailUnique | src/main/java/hexlet/code/service/UserService.java:77 | when exactly one stored user has the email, the lookup returns that user |
| UserCreateDto.TrimmedAway | src/main/java/hexlet/code/dto/user/UserCreateDTO.java:18 | the characters `trim()` removes, which `@NotBlank` ignores: everything at or below U+0020 |
| UserCreateDto.NotBlank | src/main/java/hexlet/code/dto/user/UserCreateDTO.java:18 | `@NotBlank`: not null, and something other than spaces and control characters |
| UserCreateDto.SizeAtLeast3 | src/main/java/hexlet/code/dto/user/UserCreateDTO.java:19 | `@Size(min = 3)`: null passes, otherwise at least 3 characters |
| UserCreateDto.EmailShaped | src/main/java/hexlet/code/dto/user/UserCreateDTO.java:14 | `@Email`: null or empty passes; otherwise a local part of 1 to 64 characters before the last `@` and a non-empty domain |
| UserCreateDto.Valid | src/main/java/hexlet/code/dto/user/UserCreateDTO.java:13-20 | every constraint of the create body: `@NotNull @Email` email, `@NotBlank @Size(min = 3)` password, unconstrained names |
| UserCreateDto.LastAt | src/main/java/hexlet/code/dto/user/UserCreateDTO.java:14 | the position of the last `@`, with no `@` after it; none when the text has no `@` |
| UserCreateDto.NamesUnconstrained | src/main/java/hexlet/code/dto/user/UserCreateDTO.java:16-17 | first and last name never affect validity |
| UserCreateDto.ValidPassword | src/main/java/hexlet/code/dto/user/UserCreateDTO.java:13-20 | a valid body has a non-null email and a password of at least 3 characters, one of them above U+0020 |
| UserCreateDto.EmptyEmailAccepted | src/main/java/hexlet/code/dto/user/UserCreateDTO.java:13-14 | `@NotNull @Email` lets the empty email through |
| UserCreateDto.DomainRequired | src/main/java/hexlet/code/dto/user/UserCreateDTO.java:14 | an address with nothing after its last `@` is rejected |
| UserCreateDto.BlankPasswordRejected | src/main/java/hexlet/code/dto/user/UserCreateDTO.java:18 | a password made only of characters at or below U+0020 is rejected whatever its length |
| UserCreateDto.ControlCharactersAreBlank | src/main/java/hexlet/code/dto/user/UserCreateDTO.java:18 | control characters are blank: a password of three NULs is rejected |
| UserCreateDto.UnicodeSpacesAreNotBlank | src/main/java/hexlet/code/dto/user/UserCreateDTO.java:18-19 | spaces above U+0020 are not trimmed: three or more ideographic spaces are a valid password |
| UserMapper.FromCreate | src/main/java/hexlet/code/mapper/UserMapper.java:17-18 | the new user has the DTO's email and names, id 0, and the DTO's password verbatim as its digest (no hashing) |
| UserMapper.ApplyUpdate | src/main/java/hexlet/code/mapper/UserMapper.java:20-21 | each present field overwrites the user's (`password` overwrites `passwordDigest`); absent fields and the id stay |
| UserMapper.Show | src/main/java/hexlet/code/mapper/UserMapper.java:23 | the shown user carries id, email and names, and never the digest |
| UserMapper.EmptyUpdateIsIdentity | src/main/java/hexlet/code/mapper/UserMapper.java:11-13 | an update with every field absent leaves the user as it was |
| UserMapper.ApplyUpdateIdempotent | src/main/java/hexlet/code/mapper/UserMapper.java:20-21 | applying an update twice is applying it once |
| UserMapper.ShowFromCreate | src/main/java/hexlet/code/mapper/UserMapper.java:17-23 | showing a created user gives back the DTO's email and names; the password has no effect on what is shown |
| UserMapper.PasswordUpdateHidden | src/main/java/hexlet/code/mapper/UserMapper.java:20-21 | a password-only update changes only the digest and is invisible in the shown user |
| UserService.Insert | src/main/java/hexlet/code/service/UserService.java:24-27 | a save of a new user takes the next identity value, keeps the store invariant and changes no stored user |
| UserService.LoadUserByUsername | src/main/java/hexlet/code/service/UserService.java:75-78 | the stored user whose email is the name; "User not found" exactly when no user has that email |
| UserService.UserService.constructor | src/main/java/hexlet/code/service/UserService.java:19-22 | an empty store whose identities start at 1 |
| UserService.UserService.Create | src/main/java/hexlet/code/service/UserService.java:24-27 | the store gains the mapped user under a fresh id, nothing else changes, and the result shows the saved record |
| UserService.UserService.GetAll | src/main/java/hexlet/code/service/UserService.java:29-31 | one shown DTO per stored user: as many as there are users, each stored user once |
| UserService.UserService.Get | src/main/java/hexlet/code/service/UserService.java:33-37 | the shown user, or not-found exactly when no user has the id |
| UserService.UserService.Update | src/main/java/hexlet/code/service/UserService.java:39-44 | not-found with nothing changed when the id is absent; otherwise that user alone gets the update applied and is shown |
| UserService.UserService.Delete | src/main/java/hexlet/code/service/UserService.java:46-48 | removes the user with the id if any; no other entry changes |
| UserService.UserService.Manage | src/main/java/hexlet/code/service/UserService.java:50-73 | every unimplemented `UserDetailsManager` operation fails with "Unimplemented method '…'" |
| JwtUtils.ClaimsFor | src/main/java/hexlet/code/util/JWTUtils.java:34-39 | issuer "self", subject the username, issued at the one clock reading, expiring 3600 s later |
| JwtUtils.WellFormedIffIssued | src/main/java/hexlet/code/util/JWTUtils.java:34-39 | a claim set has issuer "self" and a one-hour lifetime exactly when it is the one issued to its subject at its issue time |
| JwtUtils.ClaimsForInjective | src/main/java/hexlet/code/util/JWTUtils.java:34-39 | different usernames or clock readings give different claims |
| JwtUtils.GenerateToken | src/main/java/hexlet/code/util/JWTUtils.java:33-42 | the token is the encoder's value for exactly those four claims |
| JwtUtils.IssuedTokenDecodes | src/main/java/hexlet/code/util/JWTUtils.java:33-42 | an authentic decoder that accepts an issued token reads back its subject, issuer and one-hour window |
| UserUtils.IsAuthenticated | src/main/java/hexlet/code/util/UserUtils.java:42-45 | an authentication is present and marked authenticated |
| UserUtils.GetCurrentUser | src/main/java/hexlet/code/util/UserUtils.java:28-45 | null exactly when `isAuthenticated` is false; otherwise the stored user whose email is the principal's name, failing when no user has it |
| UserUtils.CurrentUserIsStoredUser | src/main/java/hexlet/code/util/UserUtils.java:33-34 | the only stored user with the principal's email is the current user |
| SecurityConfig.Rules | src/main/java/hexlet/code/config/SecurityConfig.java:62-67 | the five rules in declaration order: four public matchers, then every request authenticated |
| SecurityConfig.IsPublicPath | src/main/java/hexlet/code/config/SecurityConfig.java:63-66 | the public paths stated on their own: `/api/login`, `/`, `/index.html`, `/assets` and below it |
| SecurityConfig.FirstMatchIndex | src/main/java/hexlet/code/config/SecurityConfig.java:62-67 | the first rule in declaration order that matches the path |
| SecurityConfig.RequiredAccess | src/main/java/hexlet/code/config/SecurityConfig.java:62-67 | the access of the first matching rule; some rule always matches |
| SecurityConfig.PermitAllIffPublic | src/main/java/hexlet/code/config/SecurityConfig.java:63-67 | a path needs no principal exactly when it is `/api/login`, `/`, `/index.html`, `/assets` or below it; every other path needs one |
| SecurityConfig.CheckPassword | src/main/java/hexlet/code/config/SecurityConfig.java:96-100 | succeeds exactly when the user loads and the encoder matches the password against a stored digest; an unknown user is a bad-credentials failure |
| SecurityConfig.Authenticate | src/main/java/hexlet/code/config/SecurityConfig.java:68-70 | no credentials give no principal; a bearer token is accepted exactly when the decoder accepts it, with its subject as principal; Basic credentials exactly when the password check passes, with the username as principal |
| SecurityConfig.UnknownUserLikeWrongPassword | src/main/java/hexlet/code/config/SecurityConfig.java:96-100 | an unknown username and a wrong password give the same failure |
| AuthenticationController.Login | src/main/java/hexlet/code/controller/api/AuthenticationController.java:39-45 | a token only when authentication passes, and then the token for the requested username; otherwise the check's error |
| AuthenticationController.TokenIndependentOfPassword | src/main/java/hexlet/code/controller/api/AuthenticationController.java:41-44 | the password reaches only the check: successful logins of one user at one time give one token |
| AuthenticationController.LoginThenBearer | src/main/java/hexlet/code/controller/api/AuthenticationController.java:39-45 | a login token presented as bearer token and accepted authenticates exactly the user who logged in |
| AuthenticationController.StoredHashLogsIn | src/main/java/hexlet/code/controller/api/AuthenticationController.java:39-45 | a user whose digest is the hash of the password, with an email no one else has, logs in with it |
| UserController.OwnerGuard | src/main/java/hexlet/code/controller/api/UserController.java:88 | true exactly when the current user exists and has the path id; throws when there is no current user |
| UserController.GuardPassedMeansOwnUser | src/main/java/hexlet/code/controller/api/UserController.java:88 | a passing guard means the path id is the stored signed-in user |
| UserController.GuardIffOwnId | src/main/java/hexlet/code/controller/api/UserController.java:101 | for a signed-in user with a unique email, the guard passes exactly for their own id |
| UserController.DecimalString | src/main/java/hexlet/code/controller/api/UserController.java:50 | the count header is a non-empty string of decimal digits |
| UserController.ParseDecimalString | src/main/java/hexlet/code/controller/api/UserController.java:50 | the header text reads back as the count it was written from |
| UserController.GetAll | src/main/java/hexlet/code/controller/api/UserController.java:46-52 | 200, every stored user once, and `X-Total-Count` equal to the length of the body |
| UserController.Get | src/main/java/hexlet/code/controller/api/UserController.java:60-64 | 200 and the user, with no ownership condition; not-found otherwise |
| UserController.Create | src/main/java/hexlet/code/controller/api/UserController.java:72-76 | an invalid body is rejected with nothing stored; otherwise 201 and the saved user, with no ownership condition |
| UserController.Update | src/main/java/hexlet/code/controller/api/UserController.java:86-91 | runs only when the current user's id is the path id, then answers 200; otherwise denied or failed with the store unchanged |
| UserController.Delete | src/main/java/hexlet/code/controller/api/UserController.java:99-104 | runs only when the current user's id is the path id, then removes that user alone and answers 204; otherwise the store is unchanged |
| AccessDecision.GuardedId | src/main/java/hexlet/code/controller/api/UserController.java:86-104 | only the update and delete handlers carry the ownership guard |
| AccessDecision.Decide | src/main/java/hexlet/code/config/SecurityConfig.java:62-67 | 401 exactly when the rule demands a principal and none is there; an unguarded handler is otherwise allowed; a guarded one is allowed exactly when the guard is true |
| AccessDecision.Access | src/main/java/hexlet/code/config/SecurityConfig.java:62-70 | rejected credentials give 401 on any path; otherwise the decision for the principal they establish |
| AccessDecision.PublicNeedsNoPrincipal | src/main/java/hexlet/code/config/SecurityConfig.java:63-66 | public paths are allowed with or without a principal |
| AccessDecision.ProtectedNeedsPrincipal | src/main/java/hexlet/code/config/SecurityConfig.java:67 | every other path, `POST /api/users` and task routes included, is 401 without a principal |
| AccessDecision.ShowAndCreateUnguarded | src/main/java/hexlet/code/controller/api/UserController.java:46-76 | list, show and create are allowed for any principal |
| AccessDecision.OwnerOnly | src/main/java/hexlet/code/controller/api/UserController.java:86-104 | a signed-in user may update and delete exactly their own id; any other id is 403 |
| AccessDecision.LoginThenUpdateOwn | src/main/java/hexlet/code/controller/api/AuthenticationController.java:39-45 | after login, the token as bearer allows updating one's own record and no other |
| AccessDecision.FiveCannotUpdateSix | src/main/java/hexlet/code/controller/api/UserController.java:88 | user 5 may update user 5 and may not update user 6 |
| DataInitializer.SeedDTO | src/main/java/hexlet/code/component/DataInitializer.java:33-35 | the default user's email, and the encoder's output for "qwerty" as password |
| DataInitializer.Seeded | src/main/java/hexlet/code/component/DataInitializer.java:27-37 | unchanged when the default email is taken; otherwise exactly one new user with that email and the encoded password, other users untouched |
| DataInitializer.SeededHasOneDefaultUser | src/main/java/hexlet/code/component/DataInitializer.java:30-35 | after seeding, exactly one user has the default email |
| DataInitializer.SeedIdempotent | src/main/java/hexlet/code/component/DataInitializer.java:30-36 | running the seeding twice leaves the store of running it once |
| DataInitializer.SeededUserSignsIn | src/main/java/hexlet/code/component/DataInitializer.java:34 | the seeded digest is the hash, so the default user passes the password check with "qwerty" |
| DataInitializer.Run | src/main/java/hexlet/code/component/DataInitializer.java:27-37 | the service's store after `run` is the seeded store; a failing lookup changes nothing |
| TaskModel.Valid | src/main/java/hexlet/code/model/Task.java:38-48 | the bean-validation constraints: a non-null name of at least one character and a non-null status |
| TaskModel.NewTask | src/main/java/hexlet/code/model/Task.java:53-54 | a new task has no labels and is not yet valid |
| TaskModel.OptionalFieldsFree | src/main/java/hexlet/code/model/Task.java:42-54 | assignee, description, index and labels never affect validity |
| TaskModel.RequiredFields | src/main/java/hexlet/code/model/Task.java:38-48 | a null or empty name and a null status are invalid; a one-character name with a status is valid |
| TaskSpecification.AssigneeMatches | src/main/java/hexlet/code/specification/TaskSpecification.java:44-48 | null matches every task; otherwise the task has an assignee with that id |
| TaskSpecification.LabelMatches | src/main/java/hexlet/code/specification/TaskSpecification.java:59-63 | no label matches every task; otherwise the looked-up label is one of the task's labels |
| TaskSpecification.StatusMatches | src/main/java/hexlet/code/specification/TaskSpecification.java:73-76 | null matches every task; otherwise the task's status has exactly that slug |
| TaskSpecification.TitleMatchesAsWritten | src/main/java/hexlet/code/specification/TaskSpecification.java:87-92 | null matches every task; otherwise the lowered name contains the parameter as given |
| TaskSpecification.TitleMatches | src/main/java/hexlet/code/specification/TaskSpecification.java:80-92 | the case-insensitive criterion: the lowered name contains the lowered parameter |
| TaskSpecification.TitleCriterion | src/main/java/hexlet/code/specification/TaskSpecification.java:80-92 | the title criterion under a rule: as written, or case-insensitive as documented at line 82 |
| TaskSpecification.Matches | src/main/java/hexlet/code/specification/TaskSpecification.java:30-35 | the AND of the four criteria, under the chosen title rule |
| TaskSpecification.TitleAsWrittenMissesCapitals | src/main/java/hexlet/code/specification/TaskSpecification.java:87-92 | as written, searching "Fix" misses the task named "Fix bug" |
| TaskSpecification.TitleMatchesIgnoresCase | src/main/java/hexlet/code/specification/TaskSpecification.java:80-92 | the corrected criterion matches any name containing the parameter and ignores the parameter's case |
| TaskSpecification.TitleAgreesOnLowerCase | src/main/java/hexlet/code/specification/TaskSpecification.java:87-92 | for a lower-case parameter the code as written and the corrected criterion agree |
| TaskSpecification.Build | src/main/java/hexlet/code/specification/TaskSpecification.java:30-63 | an error exactly when a given label id names no label; otherwise the criteria with that label |
| TaskSpecification.Select | src/main/java/hexlet/code/specification/TaskSpecification.java:30-35 | under a given title rule, exactly the tasks that satisfy every criterion, in their order |
| TaskSpecification.Search | src/main/java/hexlet/code/specification/TaskSpecification.java:30-92 | the code's search: the unknown-label error, or the tasks matching every criterion with the title criterion as written |
| TaskSpecification.SearchCorrected | src/main/java/hexlet/code/specification/TaskSpecification.java:80-92 | the same search with the case-insensitive title criterion |
| TaskSpecification.SearchesAgreeOnLowerCase | src/main/java/hexlet/code/specification/TaskSpecification.java:87-92 | without a title parameter, or with a lower-case one, both searches find the same tasks |
| TaskSpecification.SearchMissesCapitals | src/main/java/hexlet/code/specification/TaskSpecification.java:87-92 | the search as written finds nothing for "Fix" among ["Fix bug"]; the corrected one finds the task |
| TaskSpecification.NoParamsFindsAll | src/main/java/hexlet/code/specification/TaskSpecification.java:45-46 | with every parameter null, every task is found by either search |
| TaskSpecification.NarrowerFindsLess | src/main/java/hexlet/code/specification/TaskSpecification.java:30-35 | giving an extra parameter never enlarges the result of either search |
| TaskSpecification.UnassignedNeverMatches | src/main/java/hexlet/code/specification/TaskSpecification.java:44-48 | an unassigned task is never found by an assignee search |
| TaskMapper.TaskStatusFromSlug | src/main/java/hexlet/code/mapper/TaskMapper.java:96-98 | the status with that slug; a null or unknown slug fails |
| TaskMapper.LabelsFromLabelIds | src/main/java/hexlet/code/mapper/TaskMapper.java:107-112 | the stored labels among the ids; the empty set for null |
| TaskMapper.TaskLabelIdsFromLabels | src/main/java/hexlet/code/mapper/TaskMapper.java:120-125 | exactly the ids of the given labels |
| TaskMapper.AssigneeFromId | src/main/java/hexlet/code/mapper/ReferenceMapper.java:23-24 | the user with the id; null for a null id and for an unknown one |
| TaskMapper.FromCreate | src/main/java/hexlet/code/mapper/TaskMapper.java:54-59 | title to name, content to description, status by slug, assignee by id, labels by ids; fails exactly when the status lookup fails |
| TaskMapper.ToShow | src/main/java/hexlet/code/mapper/TaskMapper.java:68-73 | assignee id, name as title, description as content, status slug, label ids |
| TaskMapper.ApplyUpdate | src/main/java/hexlet/code/mapper/TaskMapper.java:82-87 | each present field is mapped and overwrites the task's; absent ones stay; a present unknown status fails |
| TaskMapper.EmptyUpdateIsIdentity | src/main/java/hexlet/code/mapper/TaskMapper.java:29 | an update with every field absent leaves the task unchanged |
| TaskMapper.LabelIdsRoundTrip | src/main/java/hexlet/code/mapper/TaskMapper.java:107-125 | the ids of the labels found for some ids are those ids that name a stored label |
| TaskMapper.LabelsRoundTrip | src/main/java/hexlet/code/mapper/TaskMapper.java:107-125 | stored labels come back unchanged through their ids |
| TaskMapper.ShowAfterCreate | src/main/java/hexlet/code/mapper/TaskMapper.java:54-73 | showing a task created from a DTO gives back its title, content, status and index, the assignee id when it names a user, and the known label ids |
| TaskMapper.CreatedTaskValid | src/main/java/hexlet/code/mapper/TaskMapper.java:54-59 | a created task with a non-empty title satisfies the task constraints |
| TaskMapper.UpdateKeepsValid | src/main/java/hexlet/code/mapper/TaskMapper.java:82-87 | an update keeps a valid task valid unless it sets the title to null or empty |

## Left out

- HTTP routing, JSON binding and CSRF: a request carries the handler the router chose and its path id. The HTTP status of a thrown exception other than the 401/403 of the security layer is not modelled; such failures are `Err` values.
- Cryptography: BCrypt and RSA signing and verification are function-valued parameters. The decoder's signature and expiry checks are inside `Encoders.JwtCodec.decode`, and only `Encoders.Authentic` is assumed of them.
- `src/main/java/hexlet/code/config/EncodersConfig.java`, the key material and the bean wiring are not part of this model.
- The clock is a parameter; `Instant` precision below one second is not modelled.
- The security context thread-local is an explicit parameter; concurrency is not modelled.
- The `User`, `TaskStatus` and `Label` entities, `UserUpdateDTO`, `TaskCreateDTO`, `TaskUpdateDTO`, `TaskShowDTO` and `TaskParamsDTO` are not part of this model. Their fields are taken from how the mappers and the specification use them. The update DTOs hold `JsonNullable` fields. `TaskUpdateDTO` has no `index`.
- Task statuses are stored by slug, which assumes slugs are unique; labels and users are stored by id.
- `UserMapper.ApplyUpdate`, `TaskMapper.ApplyUpdate`: the mappers update the entity in place; the model returns the updated value, so aliasing of the entity object is not captured.
- `TaskMapper.ApplyUpdate`: the generated code sets the fields one after another, so when the status lookup throws, fields set before it (assignee, name, description) are already overwritten in the entity; the model returns only the error and no partially updated task.
- `TaskSpecification.Select`: the criteria run as SQL; the model filters a sequence. `%` and `_` in the title parameter act as wildcards in the real query; the model takes them literally.
- `TaskSpecification.Lower`: `LOWER` is modelled on ASCII letters only.
- `UserCreateDto.EmailShaped`: the email check keeps only the structure of Hibernate's `@Email` (null or empty passes; a local part of 1 to 64 characters before the last `@`; a non-empty domain). The character grammar of both parts is not modelled.
- `UserCreateDto.SizeAtLeast3`: Java counts UTF-16 code units; the model counts characters.
- Validation of the update bodies is not modelled.
- The account-status checks of the authentication provider are not modelled; the stored user has no such flags.
- The `createdAt` audit field of tasks is not modelled.
- `UserService.UserService.GetAll`: the order of the listed users is not modelled; the repository's order is unspecified.
- `SecurityConfig.Rules`: request matchers compare whole paths; trailing-slash and path-normalisation rules of the matcher are not modelled.

## Findings

| source | as written | input that shows it | evidently intended | confidence | as-written member | corrected member |
|---|---|---|---|---|---|---|
| src/main/java/hexlet/code/specification/TaskSpecification.java:87-92 | lowers the task name but not the search text, so a search text containing a capital letter matches nothing | task named "Fix bug", search text "Fix" | a case-insensitive match, as the comment at line 82 says | not executed | TaskSpecification.SearchMissesCapitals | TaskSpecification.TitleMatchesIgnoresCase |
