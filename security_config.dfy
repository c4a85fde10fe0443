/**
 * The security filter chain: the ordered route rules, the credentials it
 * accepts (a bearer JWT or HTTP Basic) and the username/password check of
 * the DAO authentication provider. Sessions are stateless, so everything
 * here is a function of the current request alone.
 */
module SecurityConfig {
  import opened Wrappers
  import opened UserEntity
  import opened Encoders
  import opened UserUtils
  import UserService

  /** A request matcher: one exact path, a path and everything below it
      (the `assets` pattern), or every request. Methods are never looked at. */
  datatype PathMatcher = Exact(path: string) | Subtree(root: string) | AnyRequest

  /** What a rule demands: nothing (`permitAll`) or an authenticated
      principal (`authenticated`). */
  datatype Access = PermitAll | Authenticated

  datatype Rule = Rule(matcher: PathMatcher, access: Access)

  predicate MatcherMatches(m: PathMatcher, path: string)
  {
    match m
    case Exact(p) => path == p
    case Subtree(root) => path == root || root + "/" <= path
    case AnyRequest => true
  }

  /** The rules of `authorizeHttpRequests`, in the order they are declared. */
  const Rules: seq<Rule> := [
    Rule(Exact("/api/login"), PermitAll),
    Rule(Exact("/"), PermitAll),
    Rule(Exact("/index.html"), PermitAll),
    Rule(Subtree("/assets"), PermitAll),
    Rule(AnyRequest, Authenticated)
  ]

  /** The position of the first rule that matches `path`, or `|rules|`
      when none does. */
  function FirstMatchIndex(rules: seq<Rule>, path: string): (i: nat)
    ensures i <= |rules|
    ensures forall j :: 0 <= j < i ==> !MatcherMatches(rules[j].matcher, path)
    ensures i < |rules| ==> MatcherMatches(rules[i].matcher, path)
  {
    if |rules| == 0 then 0
    else if MatcherMatches(rules[0].matcher, path) then 0
    else 1 + FirstMatchIndex(rules[1..], path)
  }

  /** What the route rules demand of a request for `path`: the access of
      the first matching rule (the last rule matches every request). */
  function RequiredAccess(path: string): (a: Access)
    ensures exists i ::
              && 0 <= i < |Rules| && MatcherMatches(Rules[i].matcher, path) && a == Rules[i].access
              && forall j :: 0 <= j < i ==> !MatcherMatches(Rules[j].matcher, path)
  {
    var i := FirstMatchIndex(Rules, path);
    assert MatcherMatches(Rules[4].matcher, path);
    Rules[i].access
  }

  /** The public paths, stated on their own: the login endpoint, the root
      document, `/index.html`, and `/assets` with everything below it. */
  predicate IsPublicPath(path: string)
  {
    path == "/api/login" || path == "/" || path == "/index.html" ||
    path == "/assets" || "/assets/" <= path
  }

  /** The rule list permits exactly the public paths; every other path,
      `/api/users` and all task routes included, needs a principal. */
  lemma PermitAllIffPublic(path: string)
    ensures RequiredAccess(path) == PermitAll <==> IsPublicPath(path)
  {
    assert Rules[3].matcher == Subtree("/assets");
    if IsPublicPath(path) {
      if path == "/api/login" {
        assert MatcherMatches(Rules[0].matcher, path);
      } else if path == "/" {
        assert MatcherMatches(Rules[1].matcher, path);
      } else if path == "/index.html" {
        assert MatcherMatches(Rules[2].matcher, path);
      } else {
        assert MatcherMatches(Rules[3].matcher, path);
      }
    } else {
      forall i | 0 <= i < 4 ensures !MatcherMatches(Rules[i].matcher, path) {
      }
    }
  }

  /** The request's `Authorization` header: nothing, a bearer token, or
      HTTP Basic username and password. */
  datatype Credentials = NoCredentials | BearerToken(token: string) | BasicCredentials(username: string, password: string)

  /** Why presented credentials are rejected: a wrong password or unknown
      user (one error for both), a failing user lookup, an unacceptable
      bearer token. */
  datatype AuthError = BadCredentials | AuthenticationServiceError | InvalidBearerToken

  /** `DaoAuthenticationProvider` with the user service and the password
      encoder: load the user by username, then match the raw password
      against the stored digest. */
  function CheckPassword(users: map<UserId, User>, encoder: PasswordEncoder, username: string, password: string)
    : (r: Result<User, AuthError>)
    ensures r.Ok? <==>
      UserService.LoadUserByUsername(users, username).Ok? &&
      UserService.LoadUserByUsername(users, username).value.passwordDigest.Some? &&
      encoder.matches(password, UserService.LoadUserByUsername(users, username).value.passwordDigest.value)
    ensures r.Ok? ==> r.value.email == Some(username) && r.value in users.Values
    ensures (forall id :: !HasEmail(users, id, username)) ==> r == Err(BadCredentials)
  {
    match UserService.LoadUserByUsername(users, username)
    case Err(e) => if e.UsernameNotFound? then Err(BadCredentials) else Err(AuthenticationServiceError)
    case Ok(u) =>
      if u.passwordDigest.Some? && encoder.matches(password, u.passwordDigest.value) then Ok(u)
      else Err(BadCredentials)
  }

  /** The authentication filters: no credentials give no principal; a
      bearer token is decoded and its subject becomes the principal; Basic
      credentials go through the provider and the username becomes the
      principal. Rejected credentials end the request before any rule. */
  function Authenticate(creds: Credentials, users: map<UserId, User>, encoder: PasswordEncoder, codec: JwtCodec, now: int)
    : (r: Result<Option<Authentication>, AuthError>)
    ensures creds.NoCredentials? <==> r == Ok(None)
    ensures r.Ok? && r.value.Some? ==> r.value.value.authenticated
    ensures creds.BearerToken? ==>
      (r.Ok? <==> codec.decode(creds.token, now).Some?) &&
      (r.Ok? ==> r.value == Some(Authentication(codec.decode(creds.token, now).value.subject, true)))
    ensures creds.BasicCredentials? ==>
      (r.Ok? <==> CheckPassword(users, encoder, creds.username, creds.password).Ok?) &&
      (r.Ok? ==> r.value == Some(Authentication(creds.username, true)))
  {
    match creds
    case NoCredentials => Ok(None)
    case BearerToken(token) =>
      (match codec.decode(token, now)
       case Some(claims) => Ok(Some(Authentication(claims.subject, true)))
       case None => Err(InvalidBearerToken))
    case BasicCredentials(username, password) =>
      (match CheckPassword(users, encoder, username, password)
       case Ok(_) => Ok(Some(Authentication(username, true)))
       case Err(e) => Err(e))
  }

  /** An unknown username and a wrong password are the same failure. */
  lemma UnknownUserLikeWrongPassword(users: map<UserId, User>, encoder: PasswordEncoder,
                                     unknown: string, known: string, password: string)
    requires forall id :: !HasEmail(users, id, unknown)
    requires UserService.LoadUserByUsername(users, known).Ok?
    requires var u := UserService.LoadUserByUsername(users, known).value;
      u.passwordDigest.Some? && !encoder.matches(password, u.passwordDigest.value)
    ensures CheckPassword(users, encoder, unknown, password) == CheckPassword(users, encoder, known, password)
  {
  }
}
