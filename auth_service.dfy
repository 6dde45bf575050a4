/** internal/service/auth.go: logging a user in and the token it hands out.

    bcrypt's comparison, JWT signing with the configured secret and the two
    `time.Now()` readings are outside the model and come in as parameters. */
module AuthService {
  import opened Wrappers
  import opened GoErrors
  import opened Models
  import opened UserRepository

  datatype LoginUserReq = LoginUserReq(username: string, password: string)

  datatype LoginUserResponse = LoginUserResponse(accessToken: string)

  /** The token's claims: the user and the registered expiry and issue times. */
  datatype Claims = Claims(userId: Uuid, expiresAt: Time, issuedAt: Time)

  /** `bcrypt.CompareHashAndPassword(hash, password) == nil` */
  type PasswordCheck = (string, string) -> bool

  /** HS256 signing of the claims with the secret key, or its error. */
  type TokenSigner = Claims -> Result<string, GoError>

  /** The lookup a login makes: by username only. */
  function LoginLookupOpts(req: LoginUserReq): GetUserOpts {
    GetUserOpts(req.username, "")
  }

  /** The claims `generateJWTToken` builds from the clock read for the expiry
      and the clock read for the issue time. */
  function TokenClaims(userId: Uuid, expiryClock: Time, issueClock: Time): (c: Claims)
    ensures c.userId == userId
    ensures c.expiresAt - c.issuedAt == SecondsPerDay + (expiryClock - issueClock)
    ensures expiryClock == issueClock ==> c.expiresAt == c.issuedAt + 24 * 60 * 60
  {
    Claims(userId, expiryClock + SecondsPerDay, issueClock)
  }

  /** `generateJWTToken`: the signed token, or the signer's error. */
  function GenerateJWTToken(userId: Uuid, sign: TokenSigner, expiryClock: Time, issueClock: Time)
    : Result<string, GoError>
  {
    sign(TokenClaims(userId, expiryClock, issueClock))
  }

  /** What `LoginUser` answers, given the database's answer to its lookup: the
      lookup's error as it is (record-not-found or any other), a password
      mismatch, a signing failure, or the token. */
  function LoginResult(found: Result<User, GoError>, req: LoginUserReq, compare: PasswordCheck,
                       sign: TokenSigner, expiryClock: Time, issueClock: Time): Result<LoginUserResponse, GoError>
  {
    if found.Err? then
      Err(found.error)
    else if !compare(found.value.password, req.password) then
      Err(Plain("invalid username or password"))
    else
      var token := GenerateJWTToken(found.value.id, sign, expiryClock, issueClock);
      if token.Err? then Err(Plain("failed to generate token")) else Ok(LoginUserResponse(token.value))
  }

  class AuthService {
    const repo: UserTable

    constructor (repo: UserTable)
      ensures this.repo == repo
    {
      this.repo := repo;
    }

    method LoginUser(req: LoginUserReq, db: UserLookup, compare: PasswordCheck, sign: TokenSigner,
                     expiryClock: Time, issueClock: Time) returns (r: Result<LoginUserResponse, GoError>)
      ensures r == LoginResult(db(repo.rows, ConditionFor(LoginLookupOpts(req))), req, compare, sign, expiryClock, issueClock)
    {
      var user := repo.GetUser(LoginLookupOpts(req), db);
      if user.Err? && IsRecordNotFound(user.error) {
        return Err(user.error);
      }
      if user.Err? {
        return Err(user.error);
      }
      if !compare(user.value.password, req.password) {
        return Err(Plain("invalid username or password"));
      }
      var token := GenerateJWTToken(user.value.id, sign, expiryClock, issueClock);
      if token.Err? {
        return Err(Plain("failed to generate token"));
      }
      return Ok(LoginUserResponse(token.value));
    }
  }

  /** A login succeeds exactly when the lookup finds a user, the password matches
      that user's hash and signing succeeds; the token is then the one signed for
      that user's claims. */
  lemma LoginSucceedsIff(found: Result<User, GoError>, req: LoginUserReq, compare: PasswordCheck,
                         sign: TokenSigner, expiryClock: Time, issueClock: Time)
    ensures var r := LoginResult(found, req, compare, sign, expiryClock, issueClock);
            r.Ok? <==> (found.Ok? && compare(found.value.password, req.password)
                        && sign(TokenClaims(found.value.id, expiryClock, issueClock)).Ok?)
    ensures var r := LoginResult(found, req, compare, sign, expiryClock, issueClock);
            r.Ok? ==> r.value.accessToken == sign(Claims(found.value.id, expiryClock + SecondsPerDay, issueClock)).value
  {
  }

  /** The ways a login fails: the lookup's own error unchanged, then a wrong
      password, then a signing failure; none of them is a service sentinel. */
  lemma LoginFailures(found: Result<User, GoError>, req: LoginUserReq, compare: PasswordCheck,
                      sign: TokenSigner, expiryClock: Time, issueClock: Time)
    ensures var r := LoginResult(found, req, compare, sign, expiryClock, issueClock);
            (found.Err? ==> r == Err(found.error))
            && (found.Ok? && !compare(found.value.password, req.password) ==> r == Err(Plain("invalid username or password")))
            && (found.Ok? && compare(found.value.password, req.password) && r.Err? ==> r == Err(Plain("failed to generate token")))
  {
  }

  /** The lookup a login makes is the username clause alone. */
  lemma LoginLooksUpByUsername(req: LoginUserReq)
    requires req.username != ""
    ensures ConditionFor(LoginLookupOpts(req)) == "username = '" + req.username + "'"
  {
  }
}
