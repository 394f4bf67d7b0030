/** The bearer-token middleware in front of the protected routes. */
module AuthMiddleware {
  import opened Wrappers
  import opened AuthCommon
  import AuthUseCase
  import Strs

  /** `JWTAuth`: an empty header, a header that is not "Bearer <token>" and a
      token the use case refuses each abort with 401 and their own message;
      otherwise "user" is set to the token's subject and the request continues. */
  function JWTAuth(uc: AuthUseCase.AuthService, header: string): (r: Outcome)
    ensures header == "" ==> r == Abort(Unauthorized, MissingHeader)
    ensures header != "" && BearerToken(header).None? ==> r == Abort(Unauthorized, InvalidHeader)
    ensures BearerToken(header).Some? && AuthUseCase.ValidateToken(uc, BearerToken(header).value).1.Some?
            ==> r == Abort(Unauthorized, InvalidToken)
    ensures r.Continue? ==>
      && BearerToken(header).Some?
      && r.user == Some(AuthUseCase.ValidateToken(uc, BearerToken(header).value).0)
  {
    if header == "" then Abort(Unauthorized, MissingHeader)
    else match BearerToken(header)
      case None => Abort(Unauthorized, InvalidHeader)
      case Some(token) =>
        var (username, err) := AuthUseCase.ValidateToken(uc, token);
        if err.Some? then Abort(Unauthorized, InvalidToken)
        else Continue(Some(username))
  }

  /** A request gets through exactly when its header is "Bearer", in any case,
      a space and a token the auth service validates; "user" is then the
      token's subject. */
  lemma {:induction false} ContinueExactlyWhenValid(uc: AuthUseCase.AuthService, header: string)
    ensures JWTAuth(uc, header).Continue? <==>
      |header| >= 7 && Strs.EqualFold(header[..6], BearerScheme) && header[6] == ' '
      && uc.validateToken(header[7..]).Ok?
    ensures JWTAuth(uc, header).Continue? ==>
      JWTAuth(uc, header).user == Some(uc.validateToken(header[7..]).value.subject)
  {
    BearerTokenShape(header);
  }
}
