/** What the model keeps of JSON Web Tokens: a signed token is its `userId` claim and its lifetime,
    and verifying one gives an outcome instead of throwing. Signing, signatures and clocks are not
    modelled. */
module Tokens {

  /** `jwt.sign({ userId }, secret, { expiresIn })`, reduced to the claim and the lifetime in seconds. */
  datatype Token = Token(userId: string, lifetimeSeconds: nat)

  /** The `{ token, refreshToken }` pair handed out on login and on refresh. */
  datatype TokenPair = TokenPair(token: Token, refreshToken: Token)

  /** `expiresIn: '72h'`. */
  const AccessTokenLifetime: nat := 72 * 60 * 60
  /** `expiresIn: '7d'`. */
  const RefreshTokenLifetime: nat := 7 * 24 * 60 * 60

  /** The pair signed for a user: both tokens carry the user's id, the access token for 72 hours and
      the refresh token for 7 days. */
  function IssuePair(userId: string): (p: TokenPair)
    ensures p.token.userId == userId && p.refreshToken.userId == userId
    ensures p.token.lifetimeSeconds == 259200 && p.refreshToken.lifetimeSeconds == 604800
    ensures p.token.lifetimeSeconds < p.refreshToken.lifetimeSeconds
  {
    TokenPair(Token(userId, AccessTokenLifetime), Token(userId, RefreshTokenLifetime))
  }

  /** How `jwt.verify` ends: a decoded payload, a `TokenExpiredError`, another `JsonWebTokenError`
      (malformed token, bad signature, ...), or any other exception. */
  datatype VerifyOutcome = Ok(userId: string) | Expired | Malformed | OtherError

  /** How `User.findByPk(decoded.userId)` ends: the row (given by its `user_id`), no row, or a thrown
      storage error. */
  datatype UserLookup = Found(userId: string) | Missing | LookupFailed
}
