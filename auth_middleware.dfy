/** The access-token middleware of the backend (BE/src/middlewares/authMiddleware.ts).

    `extractToken` accepts exactly the header `Bearer <token>` with one space and no further
    spaces. `authenticateToken` then gets the JWT secret, verifies the token and looks the user up,
    in that order, inside one `try`; every failure there is answered with 401 except a missing user,
    which is 404. On success it sets `req.user` and calls `next()`, which the model returns as
    `Proceed` with the user's id. */
module AuthMiddleware {
  import opened Common
  import opened Strings
  import opened Tokens

  const Unauthorized: nat := 401
  const NotFound: nat := 404

  /** The `message` of a rejection. */
  datatype Reply = AuthenticationRequired | TokenExpired | InvalidToken | AuthenticationFailed | UserNotFound

  function Text(r: Reply): string
  {
    match r
    case AuthenticationRequired => "Authentication required"
    case TokenExpired => "Token has expired"
    case InvalidToken => "Invalid token"
    case AuthenticationFailed => "Authentication failed"
    case UserNotFound => "User not found"
  }

  /** Either `next()` runs with `req.user` set, or exactly one error response is sent. */
  datatype AuthResult = Proceed(userId: string) | Reject(status: nat, reply: Reply)

  const Scheme: string := "Bearer"

  /** `extractToken`: an absent or empty header gives no token; otherwise the header split on single
      spaces must have exactly two parts, the first being `Bearer` (case matters). Whatever it returns,
      the header was `Bearer ` followed by that token, which has no space in it. */
  function ExtractToken(authHeader: Option<string>): (token: Option<string>)
    ensures authHeader.None? || authHeader.value == "" ==> token.None?
    ensures token.Some? ==> authHeader == Some(Scheme + " " + token.value) && ' ' !in token.value
  {
    if authHeader.None? || authHeader.value == "" then None
    else
      var parts := Split(authHeader.value, ' ');
      if |parts| != 2 || parts[0] != Scheme then None
      else
        assert Join(parts, ' ') == parts[0] + [' '] + Join(parts[1..], ' ');
        assert parts[1..] == [parts[1]];
        Some(parts[1])
  }

  /** The converse: `Bearer ` followed by any space-free token gives that token back. */
  lemma {:induction false} ExtractBearerToken(token: string)
    requires ' ' !in token
    ensures ExtractToken(Some(Scheme + " " + token)) == Some(token)
  {
    var header := Scheme + " " + token;
    assert header == Scheme + [' '] + token;
    SplitAfterSegment(Scheme, token, ' ');
    SplitNoSeparator(token, ' ');
    assert Split(header, ' ') == [Scheme, token];
  }

  /** So a token is extracted exactly from headers of the form `Bearer <token>` with a space-free token. */
  lemma ExtractTokenExactly(authHeader: Option<string>, token: string)
    ensures ExtractToken(authHeader) == Some(token) <==>
              authHeader == Some(Scheme + " " + token) && ' ' !in token
  {
    if authHeader == Some(Scheme + " " + token) && ' ' !in token {
      ExtractBearerToken(token);
    }
  }

  /** A doubled space, another scheme and a lower-case scheme all give no token. */
  lemma MalformedHeaders()
    ensures ExtractToken(Some("Bearer  x")) == None
    ensures ExtractToken(Some("Basic x")) == None
    ensures ExtractToken(Some("bearer x")) == None
  {
  }

  /** `authenticateToken`, given the header, whether JWT_SECRET is set, how `jwt.verify` ends and
      how `User.findByPk` ends. */
  function AuthenticateToken(authHeader: Option<string>, secretSet: bool, verify: VerifyOutcome,
                             lookup: UserLookup): (r: AuthResult)
    ensures !Present(ExtractToken(authHeader)) ==> r == Reject(Unauthorized, AuthenticationRequired)
    ensures r.Proceed? <==> Present(ExtractToken(authHeader)) && secretSet && verify.Ok? && lookup.Found?
    ensures r.Proceed? ==> r.userId == lookup.userId
    ensures Present(ExtractToken(authHeader)) && secretSet ==>
              && (verify.Expired? ==> r == Reject(Unauthorized, TokenExpired))
              && (verify.Malformed? ==> r == Reject(Unauthorized, InvalidToken))
              && (verify.OtherError? ==> r == Reject(Unauthorized, AuthenticationFailed))
    ensures r == Reject(NotFound, UserNotFound) <==>
              Present(ExtractToken(authHeader)) && secretSet && verify.Ok? && lookup.Missing?
    ensures Present(ExtractToken(authHeader)) && (!secretSet || (verify.Ok? && lookup.LookupFailed?)) ==>
              r == Reject(Unauthorized, AuthenticationFailed)
    ensures r.Reject? ==> r.status == Unauthorized || r.status == NotFound
  {
    var token := ExtractToken(authHeader);
    if !Present(token) then Reject(Unauthorized, AuthenticationRequired)
    else if !secretSet then Reject(Unauthorized, AuthenticationFailed)
    else
      match verify
      case Expired => Reject(Unauthorized, TokenExpired)
      case Malformed => Reject(Unauthorized, InvalidToken)
      case OtherError => Reject(Unauthorized, AuthenticationFailed)
      case Ok(_) =>
        match lookup
        case Found(id) => Proceed(id)
        case Missing => Reject(NotFound, UserNotFound)
        case LookupFailed => Reject(Unauthorized, AuthenticationFailed)
  }

  /** The header `Bearer ` (empty token) is treated like a missing header. */
  lemma EmptyBearerTokenRequired(secretSet: bool, verify: VerifyOutcome, lookup: UserLookup)
    ensures AuthenticateToken(Some("Bearer "), secretSet, verify, lookup) == Reject(Unauthorized, AuthenticationRequired)
  {
    ExtractBearerToken("");
    assert Scheme + " " + "" == "Bearer ";
  }
}
