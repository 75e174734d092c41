/** The refresh-token handler (BE/src/middlewares/refreshTokenMiddleware.ts).

    A missing `refreshToken` in the body is answered with 400 before anything else. Otherwise the
    handler gets the JWT secret, verifies the token and looks the user up inside one `try`; an
    expired token and an invalid one get distinct 401 answers, and every other exception, a missing
    secret included, gets 500. Success hands out a fresh token pair for the user. */
module RefreshTokenMiddleware {
  import opened Common
  import opened Tokens

  const Success: nat := 200
  const BadRequest: nat := 400
  const Unauthorized: nat := 401
  const NotFound: nat := 404
  const InternalServerError: nat := 500

  /** The `message` of each response. */
  datatype Reply = RefreshTokenRequired | RefreshTokenExpired | InvalidToken | UserNotFound
                 | TokenRefreshed | InternalError

  function Text(r: Reply): string
  {
    match r
    case RefreshTokenRequired => "Refresh token is required"
    case RefreshTokenExpired => "Refresh token has expired, please login again"
    case InvalidToken => "Invalid token"
    case UserNotFound => "User not found"
    case TokenRefreshed => "Token refreshed successfully"
    case InternalError => "Internal server error"
  }

  /** The one response every path sends. */
  datatype RefreshResponse = RefreshResponse(status: nat, success: bool, reply: Reply, data: Option<TokenPair>)

  function Failure(status: nat, reply: Reply): RefreshResponse
  {
    RefreshResponse(status, false, reply, None)
  }

  /** `refreshToken`, given the body field, whether JWT_SECRET is set, how `jwt.verify` ends and how
      `User.findByPk` ends. */
  function RefreshToken(refreshToken: Option<string>, secretSet: bool, verify: VerifyOutcome,
                        lookup: UserLookup): (r: RefreshResponse)
    ensures !Present(refreshToken) ==> r == Failure(BadRequest, RefreshTokenRequired)
    ensures r.status == Success <==> Present(refreshToken) && secretSet && verify.Ok? && lookup.Found?
    ensures r.status == Success ==> r.success && r.reply == TokenRefreshed && r.data == Some(IssuePair(lookup.userId))
    ensures r.status != Success ==> !r.success && r.data.None?
    ensures Present(refreshToken) && secretSet ==>
              && (verify.Expired? ==> r == Failure(Unauthorized, RefreshTokenExpired))
              && (verify.Malformed? ==> r == Failure(Unauthorized, InvalidToken))
    ensures r == Failure(NotFound, UserNotFound) <==>
              Present(refreshToken) && secretSet && verify.Ok? && lookup.Missing?
    ensures r.status == InternalServerError <==>
              Present(refreshToken) &&
              (!secretSet || verify.OtherError? || (verify.Ok? && lookup.LookupFailed?))
    ensures r.status == InternalServerError ==> r.reply == InternalError
  {
    if !Present(refreshToken) then Failure(BadRequest, RefreshTokenRequired)
    else if !secretSet then Failure(InternalServerError, InternalError)
    else
      match verify
      case Expired => Failure(Unauthorized, RefreshTokenExpired)
      case Malformed => Failure(Unauthorized, InvalidToken)
      case OtherError => Failure(InternalServerError, InternalError)
      case Ok(_) =>
        match lookup
        case Found(id) => RefreshResponse(Success, true, TokenRefreshed, Some(IssuePair(id)))
        case Missing => Failure(NotFound, UserNotFound)
        case LookupFailed => Failure(InternalServerError, InternalError)
  }

  /** Without a refresh token nothing else is consulted: the answer does not depend on the secret,
      the verification or the lookup. */
  lemma MissingTokenSkipsVerification(refreshToken: Option<string>, s1: bool, v1: VerifyOutcome, l1: UserLookup,
                                      s2: bool, v2: VerifyOutcome, l2: UserLookup)
    requires !Present(refreshToken)
    ensures RefreshToken(refreshToken, s1, v1, l1) == RefreshToken(refreshToken, s2, v2, l2)
  {
  }

  /** Expired and invalid refresh tokens are told apart, both with 401. */
  lemma ExpiredAndInvalidDiffer(refreshToken: Option<string>, lookup: UserLookup)
    requires Present(refreshToken)
    ensures RefreshToken(refreshToken, true, Expired, lookup).status == Unauthorized
    ensures RefreshToken(refreshToken, true, Malformed, lookup).status == Unauthorized
    ensures Text(RefreshToken(refreshToken, true, Expired, lookup).reply) !=
            Text(RefreshToken(refreshToken, true, Malformed, lookup).reply)
  {
    assert |Text(RefreshTokenExpired)| != |Text(InvalidToken)|;
  }
}
