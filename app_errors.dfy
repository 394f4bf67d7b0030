/** Application errors: an HTTP status code, a message, optional per-field
    details and the underlying cause. */
module AppErrors {
  import opened Wrappers
  import Strs

  const StatusBadRequest: int := 400
  const StatusNotFound: int := 404
  const StatusInternalServerError: int := 500
  const StatusBadGateway: int := 502

  /** `details` is `None` for a nil map; `err` is the cause, never shown to clients. */
  datatype AppError = AppError(code: int, message: string, details: Option<map<string, string>>, err: Option<Error>)
  {
    /** `Error()`: the message followed by the code in parentheses. */
    function Text(): string
    {
      message + " (code: " + Strs.Itoa(code) + ")"
    }
  }

  function NewBadRequest(message: string, err: Option<Error>): (r: AppError)
    ensures r.code == StatusBadRequest && r.message == message && r.err == err && r.details == None
  {
    AppError(StatusBadRequest, message, None, err)
  }

  function NewNotFound(message: string, err: Option<Error>): (r: AppError)
    ensures r.code == StatusNotFound && r.message == message && r.err == err && r.details == None
  {
    AppError(StatusNotFound, message, None, err)
  }

  function NewInternalServerError(message: string, err: Option<Error>): (r: AppError)
    ensures r.code == StatusInternalServerError && r.message == message && r.err == err && r.details == None
  {
    AppError(StatusInternalServerError, message, None, err)
  }

  /** An upstream failure: status 0 means "unspecified" and becomes 502; any
      other status is kept as given. */
  function NewExternalAPIError(message: string, err: Option<Error>, statusCode: int): (r: AppError)
    ensures r.code != 0
    ensures statusCode != 0 ==> r.code == statusCode
    ensures statusCode == 0 ==> r.code == StatusBadGateway
    ensures r.message == message && r.err == err && r.details == None
  {
    AppError(if statusCode == 0 then StatusBadGateway else statusCode, message, None, err)
  }

  /** A failed request validation: 400 with the per-field messages and no cause. */
  function ValidationError(message: string, details: map<string, string>): (r: AppError)
    ensures r.code == StatusBadRequest && r.message == message
    ensures r.details == Some(details) && r.err == None
  {
    AppError(StatusBadRequest, message, Some(details), None)
  }

  /** Defaulting the status is idempotent: feeding the resulting code back in
      changes nothing, so the fetch handler's explicit 500 stays 500. */
  lemma ExternalStatusSettled(message: string, err: Option<Error>, statusCode: int)
    ensures var r := NewExternalAPIError(message, err, statusCode);
      NewExternalAPIError(message, err, r.code) == r
    ensures NewExternalAPIError(message, err, StatusInternalServerError).code == StatusInternalServerError
  {
  }

  /** The text of an error determines its message and its code. */
  lemma {:induction false} TextDeterminesMessageAndCode(e1: AppError, e2: AppError)
    requires e1.Text() == e2.Text()
    ensures e1.message == e2.message && e1.code == e2.code
  {
    var d1, d2 := Strs.Itoa(e1.code), Strs.Itoa(e2.code);
    var head1, head2 := e1.message + " (code:", e2.message + " (code:";
    assert e1.Text() == head1 + [' '] + d1 + ")";
    assert e2.Text() == head2 + [' '] + d2 + ")";
    assert head1 + [' '] + d1 == e1.Text()[..|e1.Text()| - 1];
    assert head2 + [' '] + d2 == e2.Text()[..|e2.Text()| - 1];
    Strs.ItoaNoSeparator(e1.code, ' ');
    Strs.ItoaNoSeparator(e2.code, ' ');
    Strs.LastSeparatorUnique(head1, d1, head2, d2, ' ');
    assert e1.message == head1[..|head1| - 7];
    assert e2.message == head2[..|head2| - 7];
    Strs.AtoiItoa(e1.code);
    Strs.AtoiItoa(e2.code);
  }

  /** The printed codes of the fixed constructors. */
  lemma StatusTexts()
    ensures Strs.Itoa(StatusBadRequest) == "400"
    ensures Strs.Itoa(StatusNotFound) == "404"
    ensures Strs.Itoa(StatusInternalServerError) == "500"
    ensures Strs.Itoa(StatusBadGateway) == "502"
  {
    assert Strs.NatDigits(40) == "40";
    assert Strs.NatDigits(50) == "50";
  }

  /** What each constructor's error reads as. */
  lemma {:induction false} ConstructorTexts(message: string, err: Option<Error>, details: map<string, string>)
    ensures NewBadRequest(message, err).Text() == message + " (code: 400)"
    ensures NewNotFound(message, err).Text() == message + " (code: 404)"
    ensures NewInternalServerError(message, err).Text() == message + " (code: 500)"
    ensures NewExternalAPIError(message, err, 0).Text() == message + " (code: 502)"
    ensures ValidationError(message, details).Text() == message + " (code: 400)"
  {
    StatusTexts();
  }
}
