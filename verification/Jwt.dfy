/** Access tokens: claims, signing and validation over a symbolic message authentication code. */
module Jwt {
  import opened Wrappers
  import opened Uuids

  // Instants are nanoseconds; a NumericDate keeps whole seconds (section 2 of RFC 7519).
  const SECOND := 1_000_000_000

  function NumericDate(t: int): (s: int)
    ensures s <= t < s + SECOND && s % SECOND == 0
  {
    t - t % SECOND
  }

  datatype Claims = Claims(
    sub: Uuid, role: string, expiresAt: Option<int>, notBefore: Option<int>, issuedAt: Option<int>)

  datatype Algorithm = HS256 | OtherAlgorithm(name: string)

  // A tag can only be written down by naming the key it was made with: codes cannot be forged.
  datatype Tag = Tag(key: string, covered: Claims)

  datatype Token = Token(alg: Algorithm, claims: Claims, tag: Tag)

  function NewAccessClaims(userId: Uuid, role: string, ttl: int, now: int): Claims {
    Claims(userId, role, Some(NumericDate(now + ttl)), None, Some(NumericDate(now)))
  }

  /** The claims of a fresh token, in nanoseconds: issued in the second of `now`, expiring in the second of
      `now + ttl`; a time to live of whole seconds is kept exactly. */
  lemma FreshClaims(userId: Uuid, role: string, ttl: int, now: int)
    ensures var c := NewAccessClaims(userId, role, ttl, now);
            && c.sub == userId && c.role == role && c.notBefore == None
            && c.issuedAt.Some? && c.expiresAt.Some?
            && c.issuedAt.value % 1_000_000_000 == 0 == c.expiresAt.value % 1_000_000_000
            && c.issuedAt.value <= now < c.issuedAt.value + 1_000_000_000
            && c.expiresAt.value <= now + ttl < c.expiresAt.value + 1_000_000_000
            && (ttl % 1_000_000_000 == 0 ==> c.expiresAt.value - c.issuedAt.value == ttl)
  {
  }

  function SignJWT(claims: Claims, secret: string): Token {
    Token(HS256, claims, Tag(secret, claims))
  }

  // None is the error return. A missing "exp" or "nbf" puts no bound on the time; "iat" is not looked at.
  function ValidateJWT(token: Token, secret: string, now: int): Option<Claims> {
    if token.alg != HS256 || token.tag != Tag(secret, token.claims) then None
    else if token.claims.expiresAt.Some? && now >= token.claims.expiresAt.value then None
    else if token.claims.notBefore.Some? && now < token.claims.notBefore.value then None
    else Some(token.claims)
  }

  predicate InTime(claims: Claims, now: int) {
    && (claims.expiresAt.Some? ==> now < claims.expiresAt.value)
    && (claims.notBefore.Some? ==> claims.notBefore.value <= now)
  }

  // A token is accepted exactly when it is what signing its claims with this secret by HS256 gives, and
  // the clock is inside its bounds.
  lemma ValidIffSignedAndFresh(token: Token, secret: string, now: int)
    ensures ValidateJWT(token, secret, now).Some? <==>
        token == SignJWT(token.claims, secret) && InTime(token.claims, now)
    ensures ValidateJWT(token, secret, now).Some? ==> token.alg == HS256 && token.tag == Tag(secret, token.claims)
    ensures ValidateJWT(token, secret, now).Some? ==> ValidateJWT(token, secret, now) == Some(token.claims)
  {
  }
}
