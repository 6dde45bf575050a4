/** internal/service/user.go: creating a user.

    `uuid.New()`, `time.Now()` and bcrypt's `GenerateFromPassword` are outside
    the model: the fresh id and the clock reading are parameters, and `hash` is
    the hashing function with its possible failure. */
module UserService {
  import opened Wrappers
  import opened GoErrors
  import opened Models
  import opened UserRepository

  datatype CreateUserReq = CreateUserReq(username: string, password: string, email: string)

  /** bcrypt at the default cost: the hash of a password, or its error. */
  type PasswordHasher = string -> Result<string, GoError>

  /** The lookup user creation makes: by email only. */
  function ExistingUserOpts(req: CreateUserReq): GetUserOpts {
    GetUserOpts("", req.email)
  }

  /** The user creation stores: the fresh id, the request's username and email,
      the hash of the password (never the password itself) and the clock. */
  function NewUser(req: CreateUserReq, newId: Uuid, now: Time, hashed: string): User {
    User(newId, req.username, hashed, req.email, now)
  }

  /** What `CreateUser` returns and the user table after it, step by step as the
      service runs: look up by email, stop on a lookup error other than "not
      found" or on a found user, hash, stop on a hashing error, insert. */
  function CreateUserEffect(rows: seq<User>, req: CreateUserReq, newId: Uuid, now: Time,
                            hash: PasswordHasher, db: UserLookup, insertFault: Option<GoError>)
    : (Option<GoError>, seq<User>)
  {
    var found := db(rows, ConditionFor(ExistingUserOpts(req)));
    if found.Err? && !IsRecordNotFound(found.error) then
      (Some(found.error), rows)
    else if found.Ok? then
      (Some(Plain("user already exists")), rows)
    else
      var hashed := hash(req.password);
      if hashed.Err? then
        (Some(hashed.error), rows)
      else if insertFault.Some? then
        (insertFault, rows)
      else
        (None, rows + [NewUser(req, newId, now, hashed.value)])
  }

  class UserService {
    const repo: UserTable

    constructor (repo: UserTable)
      ensures this.repo == repo
    {
      this.repo := repo;
    }

    method CreateUser(req: CreateUserReq, newId: Uuid, now: Time, hash: PasswordHasher,
                      db: UserLookup, insertFault: Option<GoError>) returns (err: Option<GoError>)
      modifies repo
      ensures (err, repo.rows) == CreateUserEffect(old(repo.rows), req, newId, now, hash, db, insertFault)
    {
      var found := repo.GetUser(ExistingUserOpts(req), db);
      if found.Err? && !IsRecordNotFound(found.error) {
        return Some(found.error);
      }
      if found.Ok? {
        return Some(Plain("user already exists"));
      }
      var hashed := hash(req.password);
      if hashed.Err? {
        return Some(hashed.error);
      }
      var user := NewUser(req, newId, now, hashed.value);
      err := repo.CreateUser(user, insertFault);
    }
  }

  /** A call either fails and leaves the table as it was, or succeeds, only after
      the email lookup found nobody, and adds exactly the new user: the fresh id,
      the request's username and email, the clock, and as password the hash of
      the requested one. */
  lemma CreateUserStoresOneUserOrNothing(rows: seq<User>, req: CreateUserReq, newId: Uuid, now: Time,
                                         hash: PasswordHasher, db: UserLookup, insertFault: Option<GoError>)
    ensures var (err, after) := CreateUserEffect(rows, req, newId, now, hash, db, insertFault);
            err.Some? ==> after == rows
    ensures var (err, after) := CreateUserEffect(rows, req, newId, now, hash, db, insertFault);
            err.None? ==> hash(req.password).Ok?
                          && after == rows + [User(newId, req.username, hash(req.password).value, req.email, now)]
                          && db(rows, ConditionFor(GetUserOpts("", req.email))) == Err(RecordNotFound)
  {
  }

  /** A user the email lookup finds blocks the creation with "user already
      exists"; a lookup failure other than "not found" is returned unchanged. */
  lemma CreateUserLookupOutcomes(rows: seq<User>, req: CreateUserReq, newId: Uuid, now: Time,
                                 hash: PasswordHasher, db: UserLookup, insertFault: Option<GoError>)
    requires req.email != ""
    ensures var found := db(rows, EmailPrefix + req.email + "'");
            var (err, after) := CreateUserEffect(rows, req, newId, now, hash, db, insertFault);
            (found.Ok? ==> err == Some(Plain("user already exists")) && after == rows)
            && (found.Err? && found.error != RecordNotFound ==> err == Some(found.error) && after == rows)
  {
    EmailOnlyConditionDangles(req.email);
  }

  /** Once no user is found, hashing comes first: its error is returned and the
      insert never happens; otherwise the insert's error is returned unchanged. */
  lemma CreateUserAfterNotFound(rows: seq<User>, req: CreateUserReq, newId: Uuid, now: Time,
                                hash: PasswordHasher, db: UserLookup, insertFault: Option<GoError>)
    requires db(rows, ConditionFor(ExistingUserOpts(req))) == Err(RecordNotFound)
    ensures var (err, after) := CreateUserEffect(rows, req, newId, now, hash, db, insertFault);
            (hash(req.password).Err? ==> err == Some(hash(req.password).error))
            && (hash(req.password).Ok? ==> err == insertFault)
  {
  }
}
