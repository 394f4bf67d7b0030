/** The older JWT helpers: the signing secret from the environment, token
    issue, token parsing, and the `AuthRequired` middleware. Signing, decoding
    and signature checking belong to the JWT library and are parameters. */
module Jwt {
  import opened Wrappers
  import opened Domain
  import opened AuthCommon
  import AuthUseCase
  import AuthMiddleware
  import Strs

  const SecretVar: string := "JWT_SECRET"
  const SecretNotSet: Error := Message("JWT_SECRET not set")
  const UnexpectedSigningMethod: Error := Message("unexpected signing method")
  const InvalidTokenError: Error := Message("invalid token")

  /** A decoded token: whether its algorithm is an HMAC one, and its claims. */
  datatype Token = Token(hmac: bool, claims: Claims)

  /** The JWT library's part: `sign` signs claims with HS256 and a key,
      `decode` splits and decodes a token string, and `verify` checks a decoded
      token's signature and claims with a key, answering whether it is valid. */
  datatype Library = Library(
    sign: (Claims, string) -> Result<string>,
    decode: string -> Result<Token>,
    verify: (Token, string) -> Result<bool>)

  /** The signing key: the JWT_SECRET variable, which must be set and non-empty. */
  function Secret(env: map<string, string>): (r: Result<string>)
    ensures r.Err? <==> SecretVar !in env || env[SecretVar] == ""
    ensures r.Err? ==> r.error == SecretNotSet
    ensures r.Ok? ==> r.value == env[SecretVar]
  {
    if SecretVar !in env || env[SecretVar] == "" then Err(SecretNotSet) else Ok(env[SecretVar])
  }

  /** Issues a token for `username` that expires `ttl` after `now`; `issuedAt`
      is the second clock reading taken for the issue time. Without a secret
      nothing is signed and the zero time comes back. */
  function GenerateToken(lib: Library, env: map<string, string>, username: string, ttl: Duration,
                         now: Time, issuedAt: Time): (r: Grant)
    ensures Secret(env).Err? ==> r == Grant("", ZeroTime, Some(SecretNotSet))
    ensures Secret(env).Ok? ==>
      var signed := lib.sign(Claims(username, NumericDate(now + ttl), NumericDate(issuedAt)), Secret(env).value);
      && r.expiry == now + ttl
      && r.token == (if signed.Ok? then signed.value else "")
      && r.err == (if signed.Err? then Some(signed.error) else None)
  {
    match Secret(env)
    case Err(e) => Grant("", ZeroTime, Some(e))
    case Ok(sec) =>
      var exp := now + ttl;
      var claims := Claims(username, NumericDate(exp), NumericDate(issuedAt));
      match lib.sign(claims, sec)
      case Ok(signed) => Grant(signed, exp, None)
      case Err(e) => Grant("", exp, Some(e))
  }

  /** Decodes and checks a token: a missing secret, a decoding failure, a
      non-HMAC algorithm, a verification failure and an invalid token each
      end in an error; otherwise the claims come back. */
  function ParseToken(lib: Library, env: map<string, string>, token: string): (r: Result<Claims>)
    ensures Secret(env).Err? ==> r == Err(SecretNotSet)
    ensures r.Ok? ==>
      && Secret(env).Ok?
      && lib.decode(token).Ok?
      && lib.decode(token).value.hmac
      && lib.verify(lib.decode(token).value, Secret(env).value) == Ok(true)
      && r.value == lib.decode(token).value.claims
    ensures Secret(env).Ok? && lib.decode(token).Ok? && !lib.decode(token).value.hmac ==>
      r == Err(UnexpectedSigningMethod)
  {
    match Secret(env)
    case Err(e) => Err(e)
    case Ok(sec) =>
      match lib.decode(token)
      case Err(e) => Err(e)
      case Ok(tok) =>
        if !tok.hmac then Err(UnexpectedSigningMethod)
        else
          match lib.verify(tok, sec)
          case Err(e) => Err(e)
          case Ok(valid) => if valid then Ok(tok.claims) else Err(InvalidTokenError)
  }

  /** `AuthRequired`: the same header checks as the newer middleware; a token
      that does not parse aborts with 401; otherwise the request continues,
      with "user" set only when the subject is not empty. */
  function AuthRequired(lib: Library, env: map<string, string>, header: string): (r: Outcome)
    ensures header == "" ==> r == Abort(Unauthorized, MissingHeader)
    ensures header != "" && BearerToken(header).None? ==> r == Abort(Unauthorized, InvalidHeader)
    ensures BearerToken(header).Some? && ParseToken(lib, env, BearerToken(header).value).Err?
            ==> r == Abort(Unauthorized, InvalidToken)
    ensures r.Continue? ==>
      var claims := ParseToken(lib, env, BearerToken(header).value).value;
      r.user == if claims.subject != "" then Some(claims.subject) else None
  {
    if header == "" then Abort(Unauthorized, MissingHeader)
    else match BearerToken(header)
      case None => Abort(Unauthorized, InvalidHeader)
      case Some(token) =>
        match ParseToken(lib, env, token)
        case Err(_) => Abort(Unauthorized, InvalidToken)
        case Ok(claims) => Continue(if claims.subject != "" then Some(claims.subject) else None)
  }

  /** Both middlewares reject a malformed header in the same way, whatever
      validates their tokens. */
  lemma SameHeaderChecks(lib: Library, env: map<string, string>, uc: AuthUseCase.AuthService, header: string)
    requires BearerToken(header).None?
    ensures AuthRequired(lib, env, header) == AuthMiddleware.JWTAuth(uc, header)
    ensures AuthRequired(lib, env, header).Abort?
  {
  }

  /** Without a secret no token is accepted and none is issued, whatever the
      library would answer. */
  lemma MissingSecretBlocksAll(lib: Library, env: map<string, string>, header: string,
                               username: string, ttl: Duration, now: Time, issuedAt: Time)
    requires SecretVar !in env || env[SecretVar] == ""
    ensures AuthRequired(lib, env, header).Abort?
    ensures GenerateToken(lib, env, username, ttl, now, issuedAt).err == Some(SecretNotSet)
  {
  }

  /** A token issued for a non-empty name, which the library decodes back to
      the signed claims and finds valid, lets its bearer through as that user. */
  lemma {:induction false} IssuedTokenAuthenticates(lib: Library, env: map<string, string>, username: string,
                                                    ttl: Duration, now: Time, issuedAt: Time)
    requires Secret(env).Ok? && username != ""
    requires var grant := GenerateToken(lib, env, username, ttl, now, issuedAt);
      var claims := Claims(username, NumericDate(now + ttl), NumericDate(issuedAt));
      && grant.err.None?
      && lib.decode(grant.token) == Ok(Token(true, claims))
      && lib.verify(Token(true, claims), Secret(env).value) == Ok(true)
    ensures AuthRequired(lib, env, BearerScheme + " " + GenerateToken(lib, env, username, ttl, now, issuedAt).token)
            == Continue(Some(username))
  {
    var token := GenerateToken(lib, env, username, ttl, now, issuedAt).token;
    assert Strs.EqualFold(BearerScheme, BearerScheme);
    BearerRoundTrip(BearerScheme, token);
  }
}
