/** internal/repository/user.go: the user table, its insert and the lookup by a
    hand-built SQL condition.

    The database's evaluation of that condition against the stored rows (and its
    failures) is outside the model: it is the parameter `db`, which answers with
    the first matching user or an error (`RecordNotFound` when none matches). */
module UserRepository {
  import opened Wrappers
  import opened GoErrors
  import opened Models

  datatype GetUserOpts = GetUserOpts(username: string, email: string)

  /** The database answering `Where(condition).First(&user)` over the rows. */
  type UserLookup = (seq<User>, string) -> Result<User, GoError>

  const UsernamePrefix: string := "username = '"
  const EmailPrefix: string := " or email = '"

  /** The condition `GetUser` sends: a username clause when a username is given,
      then an email clause, joined by " or ", when an email is given. Both
      values are spliced between single quotes as they are, with no escaping. An
      email on its own leaves the " or " dangling with no left operand. */
  function ConditionFor(opts: GetUserOpts): string {
    if opts.username != "" && opts.email != "" then
      UsernamePrefix + opts.username + "'" + EmailPrefix + opts.email + "'"
    else if opts.username != "" then
      UsernamePrefix + opts.username + "'"
    else if opts.email != "" then
      EmailPrefix + opts.email + "'"
    else
      ""
  }

  /** The condition built as the repository builds it, one clause at a time. */
  method BuildCondition(opts: GetUserOpts) returns (condition: string)
    ensures condition == ConditionFor(opts)
  {
    condition := "";
    if opts.username != "" {
      condition := UsernamePrefix + opts.username + "'";
    }
    if opts.email != "" {
      condition := condition + EmailPrefix + opts.email + "'";
    }
  }

  /** A lookup by email alone, as user creation makes, sends a condition that
      starts with " or " and carries the email right after the clause's quote. */
  lemma EmailOnlyConditionDangles(email: string)
    requires email != ""
    ensures var c := ConditionFor(GetUserOpts("", email));
            |c| == |EmailPrefix| + |email| + 1 && c[..4] == " or "
            && c[|EmailPrefix|..|c| - 1] == email && c[|c| - 1] == '\''
  {
    var c := ConditionFor(GetUserOpts("", email));
    assert c == EmailPrefix + email + "'";
    assert c[..4] == EmailPrefix[..4];
  }

  /** The condition holds the username verbatim between its quotes, so a
      username that itself contains a quote changes the SQL: the one below turns
      the condition into one every row satisfies. */
  lemma {:induction false} UsernameSplicedVerbatim(username: string)
    requires username != ""
    ensures var c := ConditionFor(GetUserOpts(username, ""));
            c[..|UsernamePrefix|] == UsernamePrefix && c[|UsernamePrefix|..|c| - 1] == username
    ensures ConditionFor(GetUserOpts("x' or '1'='1", "")) == "username = 'x' or '1'='1'"
  {
    var c := ConditionFor(GetUserOpts(username, ""));
    assert c == UsernamePrefix + username + "'";
    assert c[..|UsernamePrefix|] == UsernamePrefix;
    assert c[|UsernamePrefix|..|c| - 1] == username;
  }

  /** The table `users`. */
  class UserTable {
    var rows: seq<User>

    constructor ()
      ensures rows == []
    {
      rows := [];
    }

    /** `DB.Create(user)`: appends the row, or returns the database's error and
        leaves the table as it was. */
    method CreateUser(user: User, fault: Option<GoError>) returns (err: Option<GoError>)
      modifies this
      ensures err == fault
      ensures rows == if fault.None? then old(rows) + [user] else old(rows)
    {
      if fault.Some? {
        return fault;
      }
      rows := rows + [user];
      return None;
    }

    /** Builds the condition and hands it to the database; its error, whatever
        it is, comes back as it is. */
    method GetUser(opts: GetUserOpts, db: UserLookup) returns (r: Result<User, GoError>)
      ensures r == db(rows, ConditionFor(opts))
    {
      var condition := BuildCondition(opts);
      r := db(rows, condition);
    }
  }
}
