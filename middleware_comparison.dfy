/** How the three token handlers classify the same situations. The backend access middleware
    (BE/src/middlewares/authMiddleware.ts), the refresh handler
    (BE/src/middlewares/refreshTokenMiddleware.ts) and the older middleware
    (src/middlewares/authMiddleware.ts) answer the same failures with different statuses. */
module MiddlewareComparison {
  import opened Common
  import opened Strings
  import opened Tokens
  import Access = AuthMiddleware
  import Refresh = RefreshTokenMiddleware
  import Legacy = LegacyAuthMiddleware

  /** Every header the backend accepts, the older middleware reads the same token from. */
  lemma BearerTokenReadAlike(authHeader: Option<string>)
    requires Access.ExtractToken(authHeader).Some?
    ensures Legacy.SecondSegment(authHeader) == Access.ExtractToken(authHeader)
  {
    var token := Access.ExtractToken(authHeader).value;
    Legacy.SchemeIgnored(Access.Scheme, token);
  }

  /** With a well-formed bearer header the two access middlewares let exactly the same requests
      through, for the same user. */
  lemma SameSuccesses(token: string, secretSet: bool, verify: VerifyOutcome, lookup: UserLookup, userId: string)
    requires token != "" && ' ' !in token
    ensures var header := Some(Access.Scheme + " " + token);
            Access.AuthenticateToken(header, secretSet, verify, lookup) == Access.Proceed(userId) <==>
            Legacy.LegacyAuthenticate(header, secretSet, verify, lookup) == Legacy.Proceed(userId)
  {
    Access.ExtractBearerToken(token);
    BearerTokenReadAlike(Some(Access.Scheme + " " + token));
  }

  /** An expired token: 401 "Token has expired" from the access middleware, 401 with the
      "please login again" message from the refresh handler, 400 "Invalid token" from the older code. */
  lemma ExpiredTokenClassification(token: string, lookup: UserLookup)
    requires token != "" && ' ' !in token
    ensures Access.AuthenticateToken(Some(Access.Scheme + " " + token), true, Expired, lookup) ==
            Access.Reject(401, Access.TokenExpired)
    ensures Refresh.RefreshToken(Some(token), true, Expired, lookup) ==
            Refresh.Failure(401, Refresh.RefreshTokenExpired)
    ensures Legacy.LegacyAuthenticate(Some(Access.Scheme + " " + token), true, Expired, lookup) ==
            Legacy.Reject(400, Legacy.InvalidToken)
  {
    Access.ExtractBearerToken(token);
    BearerTokenReadAlike(Some(Access.Scheme + " " + token));
  }

  /** A missing JWT secret: 401 "Authentication failed" from the access middleware, 500 from the
      refresh handler, 400 "Invalid token" from the older code. */
  lemma MissingSecretClassification(token: string, verify: VerifyOutcome, lookup: UserLookup)
    requires token != "" && ' ' !in token
    ensures Access.AuthenticateToken(Some(Access.Scheme + " " + token), false, verify, lookup) ==
            Access.Reject(401, Access.AuthenticationFailed)
    ensures Refresh.RefreshToken(Some(token), false, verify, lookup).status == 500
    ensures Legacy.LegacyAuthenticate(Some(Access.Scheme + " " + token), false, verify, lookup) ==
            Legacy.Reject(400, Legacy.InvalidToken)
  {
    Access.ExtractBearerToken(token);
    BearerTokenReadAlike(Some(Access.Scheme + " " + token));
  }

  /** A header with another scheme is refused by the backend's middleware but accepted by the older one. */
  lemma OtherSchemeOnlyLegacyAccepts(scheme: string, token: string, userId: string)
    requires scheme != Access.Scheme && ' ' !in scheme
    requires token != "" && ' ' !in token
    ensures Access.AuthenticateToken(Some(scheme + " " + token), true, Ok(userId), Found(userId)) ==
            Access.Reject(401, Access.AuthenticationRequired)
    ensures Legacy.LegacyAuthenticate(Some(scheme + " " + token), true, Ok(userId), Found(userId)) ==
            Legacy.Proceed(userId)
  {
    Legacy.SchemeIgnored(scheme, token);
    var header := Some(scheme + " " + token);
    if Access.ExtractToken(header).Some? {
      Access.ExtractTokenExactly(header, Access.ExtractToken(header).value);
      assert scheme + " " + token == Access.Scheme + " " + Access.ExtractToken(header).value;
      SchemeDetermined(scheme, token, Access.Scheme, Access.ExtractToken(header).value);
    }
  }

  /** The text before the first space determines the scheme. */
  lemma SchemeDetermined(a: string, b: string, c: string, d: string)
    requires ' ' !in a && ' ' !in c
    requires a + " " + b == c + " " + d
    ensures a == c
  {
    assert a + " " + b == a + [' '] + b;
    assert c + " " + d == c + [' '] + d;
    SplitAfterSegment(a, b, ' ');
    SplitAfterSegment(c, d, ' ');
  }
}
