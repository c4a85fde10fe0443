/**
 * Token issuance: the claims of a login token and the token string the
 * encoder makes of them.
 */
module JwtUtils {
  import opened Wrappers
  import opened Encoders

  /** The `iss` claim of every token. */
  const Issuer: string := "self"

  /** One hour, in seconds: the lifetime of every token. */
  const LifetimeSeconds: int := 60 * 60

  /** The claims `generateToken(username)` builds when the clock reads `now`:
      issued by "self" at `now`, expiring one hour later, about `username`. */
  function ClaimsFor(username: string, now: int): (c: JwtClaims)
    ensures c.issuer == Issuer && c.subject == username
    ensures c.issuedAt == now && c.expiresAt - c.issuedAt == 3600
  {
    JwtClaims(Issuer, now, now + LifetimeSeconds, username)
  }

  /** The claims any issued token carries, whoever it is for and whenever
      it was issued. */
  predicate WellFormed(c: JwtClaims)
  {
    c.issuer == Issuer && c.expiresAt == c.issuedAt + LifetimeSeconds
  }

  /** A claim set is well formed exactly when it is the one issued to its
      subject at its issue time. */
  lemma WellFormedIffIssued(c: JwtClaims)
    ensures WellFormed(c) <==> c == ClaimsFor(c.subject, c.issuedAt)
  {
  }

  /** Different usernames or clock readings give different claims. */
  lemma ClaimsForInjective(u1: string, now1: int, u2: string, now2: int)
    ensures ClaimsFor(u1, now1) == ClaimsFor(u2, now2) <==> u1 == u2 && now1 == now2
  {
  }

  /** `generateToken(username)`: the encoder's token for exactly the claims
      above, with one clock reading for both timestamps. */
  function GenerateToken(codec: JwtCodec, username: string, now: int): (token: string)
    ensures token == codec.encode(ClaimsFor(username, now))
    ensures WellFormed(ClaimsFor(username, now))
  {
    codec.encode(ClaimsFor(username, now))
  }

  /** A decoder that accepts an issued token reads back its subject, the
      issuer "self" and a one-hour window starting at the issue time. */
  lemma IssuedTokenDecodes(codec: JwtCodec, username: string, now: int, later: int)
    requires Authentic(codec)
    requires codec.decode(GenerateToken(codec, username, now), later).Some?
    ensures codec.decode(GenerateToken(codec, username, now), later) == Some(ClaimsFor(username, now))
    ensures var c := codec.decode(GenerateToken(codec, username, now), later).value;
      c.subject == username && c.issuer == "self" && c.issuedAt == now && c.expiresAt == now + 3600
  {
    assert codec.decode(codec.encode(ClaimsFor(username, now)), later).Some?;
  }
}
