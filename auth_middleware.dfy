/** The two request gates: `authenticate` resolves the bearer token of the
    Authorization header into an identity, `authorizeAdmin` lets only ADMIN
    identities through. The mutation of the request object is in RequestContext. */
module AuthMiddleware {
  import opened Wrappers
  import opened Domain
  import opened TextSplit

  const NO_TOKEN: string := "Authentication required. No token provided."
  const INVALID_TOKEN: string := "Authentication failed. Invalid token."
  const ADMIN_REQUIRED: string := "Access denied. Admin privileges required."

  /** What a middleware does with a request: call `next()` with `req.user` as it
      now is, or call `next(new AppError(message, status))`. */
  datatype Step = Next(user: Option<Identity>) | Reject(status: int, message: string)

  /** `req.headers.authorization?.split(" ")[1]`, kept only when truthy. */
  function BearerToken(authorization: Option<string>): (token: Option<string>)
    ensures token.Some? ==> token.value != "" && ' ' !in token.value
  {
    if authorization.None? then None
    else
      var fields := Split(authorization.value, ' ');
      if |fields| < 2 || fields[1] == "" then None else Some(fields[1])
  }

  /** The token is the word after the first space, whatever the first word is. */
  lemma BearerTokenIsSecondWord(authorization: string, scheme: string, token: string, rest: string)
    requires WordAfterScheme(authorization, scheme, token, rest)
    requires ' ' !in token && token != ""
    ensures BearerToken(Some(authorization)) == Some(token)
  {
    assert authorization == scheme + [' '] + (token + rest);
    SplitAtFirst(scheme, ' ', token + rest);
    if rest == "" {
      assert token + rest == token;
      SplitWithout(token, ' ');
    } else {
      assert token + rest == token + [' '] + rest[1..];
      SplitAtFirst(token, ' ', rest[1..]);
    }
  }

  /** `authorization` reads `scheme`, one space, `token`, then the end or another space. */
  predicate WordAfterScheme(authorization: string, scheme: string, token: string, rest: string)
  {
    && authorization == scheme + " " + token + rest
    && ' ' !in scheme
    && (rest == "" || rest[0] == ' ')
  }

  /** Conversely, an extracted token always sits between the first space and the
      next space or the end of the header. */
  lemma BearerTokenShape(authorization: string)
    requires BearerToken(Some(authorization)).Some?
    ensures exists scheme, rest ::
              WordAfterScheme(authorization, scheme, BearerToken(Some(authorization)).value, rest)
  {
    var fields := Split(authorization, ' ');
    var scheme, token := fields[0], fields[1];
    JoinSplit(authorization, ' ');
    assert authorization == scheme + [' '] + Join(fields[1..], ' ');
    var rest: string;
    if |fields| == 2 {
      rest := "";
      assert Join(fields[1..], ' ') == token;
    } else {
      assert fields[1..][1..] == fields[2..];
      rest := [' '] + Join(fields[2..], ' ');
      assert Join(fields[1..], ' ') == token + rest;
    }
    assert WordAfterScheme(authorization, scheme, token, rest);
  }

  /** A header with no space carries no token. */
  lemma NoTokenWithoutSpace(authorization: string)
    requires ' ' !in authorization
    ensures BearerToken(Some(authorization)) == None
  {
    SplitWithout(authorization, ' ');
  }

  /** A header whose first space is followed by the end or by another space
      ("Bearer ", "Bearer  abc") carries no token. */
  lemma NoTokenAfterEmptyField(scheme: string, rest: string)
    requires ' ' !in scheme
    requires rest == "" || rest[0] == ' '
    ensures BearerToken(Some(scheme + " " + rest)) == None
  {
    assert scheme + " " + rest == scheme + [' '] + rest;
    SplitAtFirst(scheme, ' ', rest);
    if rest != "" {
      assert rest == [] + [' '] + rest[1..];
      SplitAtFirst([], ' ', rest[1..]);
    }
  }

  /** `authenticate`: no token gives 401 "No token provided" before the
      verifier is consulted; a token the verifier rejects gives 401 "Invalid
      token"; otherwise the request continues with exactly the decoded claims. */
  function Authenticate(authorization: Option<string>, verify: string -> Option<Identity>): (step: Step)
    ensures BearerToken(authorization).None? ==> step == Reject(401, NO_TOKEN)
    ensures BearerToken(authorization).Some? && verify(BearerToken(authorization).value).None? ==>
              step == Reject(401, INVALID_TOKEN)
    ensures step.Next? <==>
              BearerToken(authorization).Some? && verify(BearerToken(authorization).value).Some?
    ensures step.Next? ==> step.user == verify(BearerToken(authorization).value)
  {
    match BearerToken(authorization)
    case None => Reject(401, NO_TOKEN)
    case Some(token) =>
      match verify(token)
      case None => Reject(401, INVALID_TOKEN)
      case Some(claims) => Next(Some(Identity(claims.userId, claims.role)))
  }

  /** Without a token the outcome does not depend on the verifier at all. */
  lemma NoTokenNoVerify(authorization: Option<string>, v1: string -> Option<Identity>, v2: string -> Option<Identity>)
    requires BearerToken(authorization).None?
    ensures Authenticate(authorization, v1) == Authenticate(authorization, v2)
  {
  }

  /** `authorizeAdmin`: 403 unless an identity is attached whose role is exactly
      "ADMIN"; an admin request passes unchanged. */
  function AuthorizeAdmin(user: Option<Identity>): (step: Step)
    ensures step.Next? <==> user.Some? && user.value.role == ADMIN
    ensures step.Next? ==> step.user == user
    ensures step.Reject? ==> step == Reject(403, ADMIN_REQUIRED)
  {
    if user.None? || user.value.role != ADMIN then Reject(403, ADMIN_REQUIRED) else Next(user)
  }
}
