/**
 * The cryptography the application configures but does not implement:
 * BCrypt password hashing and RSA-signed JWT encoding and decoding. Each is
 * an opaque function supplied by the caller, so nothing below depends on
 * how hashing or signing works.
 */
module Encoders {
  import opened Wrappers

  /** A `PasswordEncoder`: `encode` hashes a raw password, `matches(raw,
      digest)` checks a raw password against a stored digest. */
  datatype PasswordEncoder = PasswordEncoder(
    encode: string -> string,
    matches: (string, string) -> bool)

  /** A `JwtClaimsSet` with the four claims the application sets; times are
      seconds since the epoch. */
  datatype JwtClaims = JwtClaims(issuer: string, issuedAt: int, expiresAt: int, subject: string)

  /** The `JwtEncoder` (sign with the private key, serialize) and the
      `JwtDecoder` (parse, check the signature and the timestamps at time
      `now`, and return the claims, or reject). */
  datatype JwtCodec = JwtCodec(
    encode: JwtClaims -> string,
    decode: (string, int) -> Option<JwtClaims>)

  /** Whenever the decoder accepts a token the encoder produced, it reads
      back exactly the claims that were signed. */
  ghost predicate Authentic(codec: JwtCodec)
  {
    forall c: JwtClaims, now: int {:trigger codec.decode(codec.encode(c), now)} ::
      codec.decode(codec.encode(c), now).Some? ==> codec.decode(codec.encode(c), now) == Some(c)
  }

  /** A raw password matches the digest the encoder makes of it. */
  ghost predicate Recognizes(encoder: PasswordEncoder)
  {
    forall raw: string {:trigger encoder.encode(raw)} :: encoder.matches(raw, encoder.encode(raw))
  }
}
