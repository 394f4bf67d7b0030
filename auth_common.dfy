/** What the two authentication middlewares and the auth use case share: the
    outcome of a handler, the `Authorization` header check, and the token
    claims. */
module AuthCommon {
  import opened Wrappers
  import opened Domain
  import Strs

  const Unauthorized: int := 401
  const MissingHeader: string := "missing Authorization header"
  const InvalidHeader: string := "invalid Authorization header"
  const InvalidToken: string := "invalid or expired token"
  const BearerScheme: string := "Bearer"

  /** What a middleware does with a request: abort it with a status and an
      `error` message, or pass it on to the next handler, having set "user"
      when `user` holds a name. */
  datatype Outcome = Abort(status: int, message: string) | Continue(user: Option<string>)

  /** The registered claims the service reads and writes; the times are
      `NumericDate`s, whole seconds. */
  datatype Claims = Claims(subject: string, expiresAt: Time, issuedAt: Time)

  /** What issuing a token returns: the signed token, its expiry, and an error. */
  datatype Grant = Grant(token: string, expiry: Time, err: Option<Error>)

  /** `jwt.NewNumericDate`: the instant rounded down to a whole second. */
  function NumericDate(t: Time): (d: Time)
    ensures d % Second == 0
    ensures d <= t < d + Second
  {
    (t / Second) * Second
  }

  /** The token of a header with two parts whose first equals "Bearer" ignoring
      case, or `None` for any other header. */
  function BearerToken(h: string): Option<string>
  {
    var parts := Strs.SplitFirst(h, ' ');
    if |parts| != 2 || !Strs.EqualFold(parts[0], BearerScheme) then None else Some(parts[1])
  }

  /** A character that folds to a letter is not a space. */
  lemma FoldsToLetterNotSpace(ch: char, letter: char)
    requires 'a' <= Strs.LowerAscii(letter) <= 'z'
    requires Strs.LowerAscii(ch) == Strs.LowerAscii(letter)
    ensures ch != ' '
  {
  }

  /** A six-character scheme equal to "Bearer" ignoring case has no space. */
  lemma BearerSchemeNoSpace(scheme: string)
    requires Strs.EqualFold(scheme, BearerScheme)
    ensures ' ' !in scheme
  {
    forall k | 0 <= k < |scheme| ensures scheme[k] != ' ' {
      FoldsToLetterNotSpace(scheme[k], BearerScheme[k]);
    }
  }

  /** A header is accepted exactly when its first six characters spell "Bearer"
      in any case and a space follows; the token is everything after that space,
      further spaces included. */
  lemma {:induction false} BearerTokenShape(h: string)
    ensures BearerToken(h).Some? <==> |h| >= 7 && Strs.EqualFold(h[..6], BearerScheme) && h[6] == ' '
    ensures BearerToken(h).Some? ==> BearerToken(h).value == h[7..]
  {
    var parts := Strs.SplitFirst(h, ' ');
    if BearerToken(h).Some? {
      assert |parts| == 2 && Strs.EqualFold(parts[0], BearerScheme);
      assert |parts[0]| == 6;
      assert h[..6] == parts[0];
      assert h[7..] == parts[1];
    }
    if |h| >= 7 && Strs.EqualFold(h[..6], BearerScheme) && h[6] == ' ' {
      BearerSchemeNoSpace(h[..6]);
      Strs.IndexOfIs(h, ' ', 6);
      assert parts == [h[..6], h[7..]];
    }
  }

  /** A header built as scheme, space, token gives the token back. */
  lemma BearerRoundTrip(scheme: string, token: string)
    requires Strs.EqualFold(scheme, BearerScheme)
    ensures BearerToken(scheme + " " + token) == Some(token)
  {
    var h := scheme + " " + token;
    assert h[..6] == scheme && h[6] == ' ' && h[7..] == token;
    BearerTokenShape(h);
  }
}
