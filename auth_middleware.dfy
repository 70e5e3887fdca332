/**
 * The server's request authentication (server/src/middleware/auth.ts): the
 * Bearer header is parsed, the token is verified, the user is looked up and
 * attached to the request, and failures are classified into responses. Token
 * verification and the user lookup are library and database calls; their
 * verdicts are inputs here, as functions of what they are given.
 */
module AuthMiddleware {
  import opened Wrappers
  import opened JsText

  /** The outcome of `jwt.verify`: the decoded user id, or the name of the error thrown. */
  datatype TokenVerdict = Decoded(userId: string) | TokenThrew(name: string)

  /** The outcome of `User.findById`: a user, none, or the name of the error thrown. */
  datatype Lookup<U> = Found(user: U) | NotFound | LookupThrew(name: string)

  /** Either the request goes on to the next handler with a user, or it is answered. */
  datatype Outcome<U> = Next(user: U) | Respond(status: nat, message: string)

  const BearerPrefix := "Bearer "

  /**
   * The token of an Authorization header: absent unless the header is present
   * and starts with "Bearer ", and then the header minus those 7 characters.
   */
  function BearerToken(header: Option<string>): (token: Option<string>)
    ensures token.Some? <==> header.Some? && |header.value| >= 7 && header.value[..7] == BearerPrefix
    ensures token.Some? ==> header.value == BearerPrefix + token.value
  {
    if header.Some? && |header.value| >= |BearerPrefix| && header.value[..|BearerPrefix|] == BearerPrefix
    then Some(header.value[|BearerPrefix|..])
    else None
  }

  /** Every token comes back from the header it is sent in. */
  lemma BearerRoundTrip(token: string)
    ensures BearerToken(Some(BearerPrefix + token)) == Some(token)
  {
    assert (BearerPrefix + token)[..7] == BearerPrefix;
    assert (BearerPrefix + token)[7..] == token;
  }

  /** The response for an error thrown while verifying the token or finding the user. */
  function ClassifyError<U>(name: string): (r: Outcome<U>)
    ensures r.Respond?
    ensures r.status == 401 <==> name == "JsonWebTokenError" || name == "TokenExpiredError"
    ensures r.status != 401 ==> r.status == 500 && r.message == "Authentication failed"
    ensures name == "JsonWebTokenError" ==> r.message == "Invalid token"
    ensures name == "TokenExpiredError" ==> r.message == "Token expired"
  {
    if name == "JsonWebTokenError" then Respond(401, "Invalid token")
    else if name == "TokenExpiredError" then Respond(401, "Token expired")
    else Respond(500, "Authentication failed")
  }

  /**
   * The decision `authenticate` takes for a header and the configured secret,
   * given the verifier's and the database's verdicts.
   */
  function Authenticate<U>(
    header: Option<string>,
    secret: Option<string>,
    verify: (string, string) -> TokenVerdict,
    findById: string -> Lookup<U>): (r: Outcome<U>)
    ensures BearerToken(header).None? ==> r == Respond(401, "No token provided. Authorization header required.")
    ensures BearerToken(header).Some? && (secret.None? || secret.value == []) ==>
              r == Respond(500, "Server configuration error")
    ensures r.Next? <==>
              && BearerToken(header).Some?
              && secret.Some? && secret.value != []
              && verify(BearerToken(header).value, secret.value).Decoded?
              && findById(verify(BearerToken(header).value, secret.value).userId).Found?
    ensures r.Next? ==>
              r.user == findById(verify(BearerToken(header).value, secret.value).userId).user
    ensures r.Respond? ==> r.status == 401 || r.status == 500
  {
    var token := BearerToken(header);
    if token.None? then Respond(401, "No token provided. Authorization header required.")
    else if secret.None? || secret.value == [] then Respond(500, "Server configuration error")
    else
      match verify(token.value, secret.value)
      case TokenThrew(name) => ClassifyError(name)
      case Decoded(userId) =>
        match findById(userId)
        case Found(user) => Next(user)
        case NotFound => Respond(401, "User not found. Token invalid.")
        case LookupThrew(name) => ClassifyError(name)
  }

  /** An expired or malformed token is answered 401, never passed on. */
  lemma RejectedTokenIs401<U>(
    header: Option<string>,
    secret: Option<string>,
    verify: (string, string) -> TokenVerdict,
    findById: string -> Lookup<U>)
    requires BearerToken(header).Some? && secret.Some? && secret.value != []
    requires var v := verify(BearerToken(header).value, secret.value);
             v.TokenThrew? && (v.name == "JsonWebTokenError" || v.name == "TokenExpiredError")
    ensures Authenticate(header, secret, verify, findById).Respond?
    ensures Authenticate(header, secret, verify, findById).status == 401
  {
  }

  /** A verified token whose user does not exist is answered 401 and not passed on. */
  lemma UnknownUserIs401<U>(
    header: Option<string>,
    secret: Option<string>,
    verify: (string, string) -> TokenVerdict,
    findById: string -> Lookup<U>)
    requires BearerToken(header).Some? && secret.Some? && secret.value != []
    requires var v := verify(BearerToken(header).value, secret.value);
             v.Decoded? && findById(v.userId).NotFound?
    ensures Authenticate(header, secret, verify, findById) == Respond(401, "User not found. Token invalid.")
  {
  }

  /** The request as the middleware sees it: the header, and the user it may attach. */
  class AuthRequest<U> {
    const authorization: Option<string>
    var user: Option<U>

    constructor (authorization: Option<string>)
      ensures this.authorization == authorization && user.None?
    {
      this.authorization := authorization;
      user := None;
    }
  }

  /** Attaches the user to the request exactly when the request goes on. */
  method AuthenticateRequest<U>(
    req: AuthRequest<U>,
    secret: Option<string>,
    verify: (string, string) -> TokenVerdict,
    findById: string -> Lookup<U>) returns (outcome: Outcome<U>)
    modifies req
    ensures outcome == Authenticate(req.authorization, secret, verify, findById)
    ensures outcome.Next? ==> req.user == Some(outcome.user)
    ensures outcome.Respond? ==> req.user == old(req.user)
  {
    outcome := Authenticate(req.authorization, secret, verify, findById);
    if outcome.Next? {
      req.user := Some(outcome.user);
    }
  }

  /** Access tokens live 15 minutes and refresh tokens 7 days unless configured. */
  function AccessTokenExpiry(configured: Option<string>): (r: string)
    ensures configured.None? || configured.value == [] ==> r == "15m"
    ensures configured.Some? && configured.value != [] ==> r == configured.value
  {
    OrElse(configured, "15m")
  }

  function RefreshTokenExpiry(configured: Option<string>): (r: string)
    ensures configured.None? || configured.value == [] ==> r == "7d"
    ensures configured.Some? && configured.value != [] ==> r == configured.value
  {
    OrElse(configured, "7d")
  }
}
