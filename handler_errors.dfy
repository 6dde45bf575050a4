/** internal/handler/errors.go: turning a service error into the web error a
    handler answers with. The sentinels are tested in order and the first that
    matches decides; anything else is an internal error. */
module HandlerErrors {
  import opened GoErrors
  import opened WebError

  const ReportingPrefix: string := "error while reporting sighting : "
  const LoginPrefix: string := "login failed : "
  const UserCreationPrefix: string := "user creation failed : "
  const ProcessingPrefix: string := "error while processing request : "

  /** The status each error gets: 400 for a missing tiger, a sighting already
      reported and a user that already exists; 401 for a wrong username or
      password; 500 for everything else, the errors without a sentinel included. */
  function ErrorResponse(err: GoError): (r: CustomError)
    ensures r.HTTPStatusCode() == 400
            <==> err in {ServiceSentinel(TigerDoesNotExist), ServiceSentinel(SightingAlreadyReported),
                         ServiceSentinel(UserAlreadyExistsWithSameEmailUsername)}
    ensures r.HTTPStatusCode() == 401 <==> err == ServiceSentinel(InvalidUsernamePassword)
    ensures r.HTTPStatusCode() == 500
            <==> !(err.ServiceSentinel? && err.sentinel in {TigerDoesNotExist, SightingAlreadyReported,
                                                            UserAlreadyExistsWithSameEmailUsername, InvalidUsernamePassword})
    ensures r.Cause() == ""
  {
    if Is(err, TigerDoesNotExist) then
      ErrBadRequest(Text(err))
    else if Is(err, FetchingTigerDetails) then
      ErrInternalServerError(ReportingPrefix + Text(err))
    else if Is(err, FetchingExistingSightings) then
      ErrInternalServerError(ReportingPrefix + Text(err))
    else if Is(err, SightingAlreadyReported) then
      ErrBadRequest(ReportingPrefix + Text(err))
    else if Is(err, SendingEmailNotification) then
      ErrInternalServerError(ReportingPrefix + Text(err))
    else if Is(err, InvalidUsernamePassword) then
      ErrUnauthorizedRequest(LoginPrefix + Text(err))
    else if Is(err, TokenGenerationFailed) then
      ErrInternalServerError(LoginPrefix + Text(err))
    else if Is(err, UserAlreadyExistsWithSameEmailUsername) then
      ErrBadRequest(UserCreationPrefix + Text(err))
    else if Is(err, CreatingUser) then
      ErrInternalServerError(Text(err))
    else
      ErrInternalServerError(ProcessingPrefix + Text(err))
  }

  /** The message: the sentinel's own text for a missing tiger and for a failed
      user creation, the area's prefix before it for the other sentinels, and
      "error while processing request : " before the text of any other error. */
  lemma ErrorResponseMessage(err: GoError)
    ensures err.ServiceSentinel? && err.sentinel in {TigerDoesNotExist, CreatingUser}
            ==> ErrorResponse(err).Description() == SentinelText(err.sentinel)
    ensures err.ServiceSentinel? && err.sentinel in {FetchingTigerDetails, FetchingExistingSightings,
                                                      SightingAlreadyReported, SendingEmailNotification}
            ==> ErrorResponse(err).Description() == ReportingPrefix + SentinelText(err.sentinel)
    ensures err.ServiceSentinel? && err.sentinel in {InvalidUsernamePassword, TokenGenerationFailed}
            ==> ErrorResponse(err).Description() == LoginPrefix + SentinelText(err.sentinel)
    ensures err == ServiceSentinel(UserAlreadyExistsWithSameEmailUsername)
            ==> ErrorResponse(err).Description() == UserCreationPrefix + SentinelText(err.sentinel)
    ensures !err.ServiceSentinel? ==> ErrorResponse(err) == ErrInternalServerError(ProcessingPrefix + Text(err))
  {
  }

  /** An error that only shares a sentinel's text is not that sentinel: the
      login service's own "invalid username or password" is an internal error
      here, not 401. */
  lemma PlainTextIsNotSentinel()
    ensures Text(Plain("invalid username or password")) == Text(ServiceSentinel(InvalidUsernamePassword))
    ensures ErrorResponse(Plain("invalid username or password")).HTTPStatusCode() == 500
    ensures ErrorResponse(ServiceSentinel(InvalidUsernamePassword)).HTTPStatusCode() == 401
  {
  }
}
