/** Go error values as the core produces and tests them.

    A sentinel is a package-level `errors.New` value of internal/service/errors.go;
    `errors.Is(err, sentinel)` holds exactly when `err` is that very value (nothing in
    the core wraps errors). `RecordNotFound` is gorm.ErrRecordNotFound. Every other
    error (an ad-hoc `errors.New`, a database or hashing failure) is `Plain`, carrying
    only its text: no plain error is ever `errors.Is` a sentinel, even with equal text. */
module GoErrors {

  datatype Sentinel =
    | TigerDoesNotExist
    | FetchingTigerDetails
    | FetchingExistingSightings
    | SightingAlreadyReported
    | SendingEmailNotification
    | InvalidUsernamePassword
    | TokenGenerationFailed
    | UserAlreadyExistsWithSameEmailUsername
    | CreatingUser

  datatype GoError =
    | ServiceSentinel(sentinel: Sentinel)
    | RecordNotFound
    | Plain(text: string)

  /** The message each sentinel was created with. */
  function SentinelText(s: Sentinel): string {
    match s
    case TigerDoesNotExist => "error while fetching tiger details"
    case FetchingTigerDetails => "unable to fetch tiger details"
    case FetchingExistingSightings => "unable to check existing sightings"
    case SightingAlreadyReported => "already reported in range"
    case SendingEmailNotification => "unable to send email notifications"
    case InvalidUsernamePassword => "invalid username or password"
    case TokenGenerationFailed => "failed to generate token"
    case UserAlreadyExistsWithSameEmailUsername => "user already exists with same email/username"
    case CreatingUser => "error while creating user"
  }

  /** `err.Error()` */
  function Text(e: GoError): string {
    match e
    case ServiceSentinel(s) => SentinelText(s)
    case RecordNotFound => "record not found"
    case Plain(t) => t
  }

  /** `errors.Is(e, target)` for a sentinel target. */
  predicate Is(e: GoError, target: Sentinel) {
    e == ServiceSentinel(target)
  }

  /** `errors.Is(e, gorm.ErrRecordNotFound)` */
  predicate IsRecordNotFound(e: GoError) {
    e.RecordNotFound?
  }
}
