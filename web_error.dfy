/** internal/web/error.go: the error values handlers answer with, their
    constructors, accessors and text. Status codes are those of section 15 of
    RFC 9110. */
module WebError {
  import Decimal
  import opened Wrappers

  const UnauthorizedRequest: string := "unauthorized"
  const BadRequest: string := "bad_request"
  const InternalServerError: string := "internal_server_error"
  const NotFound: string := "not_found"

  /** RFC 9110 section 15.3.1 */
  const StatusOK: int := 200
  /** RFC 9110 section 15.3.2 */
  const StatusCreated: int := 201
  /** RFC 9110 section 15.5.1 */
  const StatusBadRequest: int := 400
  /** RFC 9110 section 15.5.2 */
  const StatusUnauthorized: int := 401
  /** RFC 9110 section 15.6.1 */
  const StatusInternalServerError: int := 500

  /** `customError`; its `metadata` is never set and is left out. */
  datatype CustomError = CustomError(code: string, description: string, cause: string, httpStatusCode: int)
  {
    /** `Code()` */
    function Code(): string { code }

    /** `Description()` */
    function Description(): string { description }

    /** `HTTPStatusCode()` */
    function HTTPStatusCode(): int { httpStatusCode }

    /** `Cause()` */
    function Cause(): string { cause }

    /** `Error()`: "code: <c> description: <d> httpStatusCode: <n> cause: <k>". */
    function Error(): string {
      "code: " + code + " description: " + description
      + " httpStatusCode: " + Decimal.IntToDecimal(httpStatusCode) + " cause: " + cause
    }
  }

  function ErrUnauthorizedRequest(desc: string): (e: CustomError)
    ensures e.Code() == UnauthorizedRequest && e.HTTPStatusCode() == 401
    ensures e.Description() == desc && e.Cause() == ""
  {
    CustomError(UnauthorizedRequest, desc, "", StatusUnauthorized)
  }

  function ErrBadRequest(desc: string): (e: CustomError)
    ensures e.Code() == BadRequest && e.HTTPStatusCode() == 400
    ensures e.Description() == desc && e.Cause() == ""
  {
    CustomError(BadRequest, desc, "", StatusBadRequest)
  }

  function ErrInternalServerError(desc: string): (e: CustomError)
    ensures e.Code() == InternalServerError && e.HTTPStatusCode() == 500
    ensures e.Description() == desc && e.Cause() == ""
  {
    CustomError(InternalServerError, desc, "", StatusInternalServerError)
  }

  /** An upstream error keeps the caller's code and is sent with status 200. */
  function ErrUpstreamError(code: string, desc: string): (e: CustomError)
    ensures e.Code() == code && e.HTTPStatusCode() == 200
    ensures e.Description() == desc && e.Cause() == ""
  {
    CustomError(code, desc, "", StatusOK)
  }

  /** Every error a constructor builds has an empty cause, and its status tells
      which constructor built it (for the three with a fixed code). */
  ghost predicate Constructed(e: CustomError) {
    (exists d :: e == ErrUnauthorizedRequest(d)) || (exists d :: e == ErrBadRequest(d))
    || (exists d :: e == ErrInternalServerError(d)) || (exists c, d :: e == ErrUpstreamError(c, d))
  }

  lemma ConstructedErrors(e: CustomError)
    requires Constructed(e)
    ensures e.Cause() == ""
    ensures e.HTTPStatusCode() in {200, 400, 401, 500}
    ensures e.HTTPStatusCode() == 401 <==> e == ErrUnauthorizedRequest(e.Description())
    ensures e.HTTPStatusCode() == 400 <==> e == ErrBadRequest(e.Description())
    ensures e.HTTPStatusCode() == 500 <==> e == ErrInternalServerError(e.Description())
  {
  }

  /** The text of an error lays out its four fields in order, and the status in
      it reads back with `strconv.Atoi` as the status itself. */
  lemma ErrorTextFields(e: CustomError)
    requires Decimal.MinInt64 <= e.httpStatusCode <= Decimal.MaxInt64
    ensures var status := Decimal.IntToDecimal(e.httpStatusCode);
            var head := "code: " + e.code + " description: " + e.description + " httpStatusCode: ";
            e.Error()[..|head|] == head
            && e.Error()[|head|..|head| + |status|] == status
            && e.Error()[|head| + |status|..] == " cause: " + e.cause
            && Decimal.Atoi(e.Error()[|head|..|head| + |status|]) == Some(e.httpStatusCode)
  {
    var status := Decimal.IntToDecimal(e.httpStatusCode);
    var head := "code: " + e.code + " description: " + e.description + " httpStatusCode: ";
    var text := e.Error();
    assert text == head + status + (" cause: " + e.cause);
    assert text[..|head|] == head;
    assert text[|head|..|head| + |status|] == status;
    assert text[|head| + |status|..] == " cause: " + e.cause;
    Decimal.AtoiOfIntToDecimal(e.httpStatusCode);
  }
}
