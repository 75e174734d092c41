/** The older access-token middleware (src/middlewares/authMiddleware.ts).

    It takes the second space-separated segment of the Authorization header whatever the first one
    says, and answers every failure of verification or lookup with the same 400 "Invalid token"
    (StatusCode.ERROR of src/enum/AppConst.ts); only a missing user gets 404. */
module LegacyAuthMiddleware {
  import opened Common
  import opened Strings
  import opened Tokens

  const BadRequest: nat := 400
  const Unauthorized: nat := 401
  const NotFound: nat := 404

  datatype Reply = AccessDenied | InvalidToken | UserNotFound

  function Text(r: Reply): string
  {
    match r
    case AccessDenied => "Access denied"
    case InvalidToken => "Invalid token"
    case UserNotFound => "User not found"
  }

  /** Either `next()` runs with `req.user` set, or one error response is sent. */
  datatype AuthResult = Proceed(userId: string) | Reject(status: nat, reply: Reply)

  /** `req.header('Authorization')?.split(' ')[1]`: there is a second segment exactly when the header
      contains a space, and it is the space-free text after the first space. */
  function SecondSegment(authHeader: Option<string>): (token: Option<string>)
    ensures token.Some? <==> authHeader.Some? && ' ' in authHeader.value
    ensures token.Some? ==> ' ' !in token.value
  {
    if authHeader.None? then None
    else
      var parts := Split(authHeader.value, ' ');
      SplitHasSecondPart(authHeader.value, ' ');
      if |parts| >= 2 then Some(parts[1]) else None
  }

  /** The scheme word is never looked at: any space-free scheme followed by a space-free token gives
      that token, so `Basic abc` yields `abc`. */
  lemma {:induction false} SchemeIgnored(scheme: string, token: string)
    requires ' ' !in scheme && ' ' !in token
    ensures SecondSegment(Some(scheme + " " + token)) == Some(token)
  {
    assert scheme + " " + token == scheme + [' '] + token;
    SplitAfterSegment(scheme, token, ' ');
    SplitNoSeparator(token, ' ');
  }

  /** Only the first two segments matter: after a space-free scheme and a space-free token, a
      further space and whatever follows it are dropped, so `Bearer x y` yields `x`. */
  lemma {:induction false} SecondOfMany(scheme: string, token: string, rest: string)
    requires ' ' !in scheme && ' ' !in token
    ensures SecondSegment(Some(scheme + " " + token + " " + rest)) == Some(token)
  {
    assert scheme + " " + token + " " + rest == scheme + [' '] + (token + [' '] + rest);
    SplitAfterSegment(scheme, token + [' '] + rest, ' ');
    SplitAfterSegment(token, rest, ' ');
  }

  lemma BasicSchemeExample()
    ensures SecondSegment(Some("Basic abc")) == Some("abc")
  {
    SchemeIgnored("Basic", "abc");
    assert "Basic" + " " + "abc" == "Basic abc";
  }

  /** `authenticateToken` of the older code: an absent or empty second segment gives 401, a missing
      user 404, and anything else that goes wrong (an unset secret makes `jwt.verify` throw too) 400. */
  function LegacyAuthenticate(authHeader: Option<string>, secretSet: bool, verify: VerifyOutcome,
                              lookup: UserLookup): (r: AuthResult)
    ensures !Present(SecondSegment(authHeader)) ==> r == Reject(Unauthorized, AccessDenied)
    ensures r.Proceed? <==> Present(SecondSegment(authHeader)) && secretSet && verify.Ok? && lookup.Found?
    ensures r.Proceed? ==> r.userId == lookup.userId
    ensures r == Reject(NotFound, UserNotFound) <==>
              Present(SecondSegment(authHeader)) && secretSet && verify.Ok? && lookup.Missing?
    ensures Present(SecondSegment(authHeader)) && (!secretSet || !verify.Ok? || lookup.LookupFailed?) ==>
              r == Reject(BadRequest, InvalidToken)
  {
    var token := SecondSegment(authHeader);
    if !Present(token) then Reject(Unauthorized, AccessDenied)
    else if !secretSet || !verify.Ok? then Reject(BadRequest, InvalidToken)
    else
      match lookup
      case Found(id) => Proceed(id)
      case Missing => Reject(NotFound, UserNotFound)
      case LookupFailed => Reject(BadRequest, InvalidToken)
  }
}
