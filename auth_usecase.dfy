/** The auth use case: logging in issues a day-long bearer token, and
    validating a token yields its subject. The auth service it calls is a
    record of functions. */
module AuthUseCase {
  import opened Wrappers
  import opened Domain
  import opened AuthCommon
  import Strs

  datatype LoginRequest = LoginRequest(username: string, password: string)

  /** `expiresAt` is the expiry formatted per section 5.6 of RFC 3339, in UTC. */
  datatype LoginResponse = LoginResponse(token: string, tokenType: string, expiresAt: string)

  /** The auth service: the credential check, token issue for a name and a
      lifetime, and token validation. */
  datatype AuthService = AuthService(
    validCredentials: (string, string) -> bool,
    generateToken: (string, Duration) -> Grant,
    validateToken: string -> Result<Claims>)

  const TokenTtl: Duration := 24 * Hour
  const InvalidCredentials: Error := Message("invalid credentials")
  const CouldNotIssue: Error := Message("could not issue token")

  /** Refuses bad credentials without issuing a token; otherwise asks for a
      24-hour token, replaces any issuing error by a fixed one, and returns the
      token as a "Bearer" token with its expiry rendered by `formatUtc`. */
  function Login(svc: AuthService, req: LoginRequest, formatUtc: Time -> string): (r: Result<LoginResponse>)
    ensures var grant := svc.generateToken(req.username, TokenTtl);
      && (r.Ok? <==> svc.validCredentials(req.username, req.password) && grant.err.None?)
      && (!svc.validCredentials(req.username, req.password) ==> r == Err(InvalidCredentials))
      && (svc.validCredentials(req.username, req.password) && grant.err.Some? ==> r == Err(CouldNotIssue))
      && (r.Ok? ==> r.value == LoginResponse(grant.token, BearerScheme, formatUtc(grant.expiry)))
  {
    if !svc.validCredentials(req.username, req.password) then Err(InvalidCredentials)
    else
      var grant := svc.generateToken(req.username, TokenTtl);
      if grant.err.Some? then Err(CouldNotIssue)
      else Ok(LoginResponse(grant.token, BearerScheme, formatUtc(grant.expiry)))
  }

  /** Which error token issuing reports makes no difference to the login. */
  lemma LoginDiscardsIssueError(svc: AuthService, req: LoginRequest, formatUtc: Time -> string, e1: Error, e2: Error)
    requires svc.generateToken(req.username, TokenTtl).err == Some(e1)
    ensures var other := svc.(generateToken := (n: string, d: Duration) =>
              if n == req.username && d == TokenTtl then svc.generateToken(n, d).(err := Some(e2))
              else svc.generateToken(n, d));
      Login(svc, req, formatUtc) == Login(other, req, formatUtc)
  {
  }

  /** A logged-in client can present the token in the form the middleware
      accepts: the token type, a space, the token. */
  lemma {:induction false} LoginTokenIsBearer(svc: AuthService, req: LoginRequest, formatUtc: Time -> string)
    requires Login(svc, req, formatUtc).Ok?
    ensures var resp := Login(svc, req, formatUtc).value;
      BearerToken(resp.tokenType + " " + resp.token) == Some(resp.token)
  {
    var resp := Login(svc, req, formatUtc).value;
    assert resp.tokenType == BearerScheme;
    assert Strs.EqualFold(BearerScheme, BearerScheme);
    BearerRoundTrip(resp.tokenType, resp.token);
  }

  /** The subject of a valid token, or "" and the validation error. */
  function ValidateToken(svc: AuthService, token: string): (r: (string, Option<Error>))
    ensures r.1.None? <==> svc.validateToken(token).Ok?
    ensures r.1.None? ==> r.0 == svc.validateToken(token).value.subject
    ensures r.1.Some? ==> r == ("", Some(svc.validateToken(token).error))
  {
    match svc.validateToken(token)
    case Ok(claims) => (claims.subject, None)
    case Err(e) => ("", Some(e))
  }
}
