/**
 * The credential check of the login route: look a username up in the static
 * user table, compare the password, and hand back a copy of the account
 * without its `password` field.
 */
module Credentials {

  import opened JsValues

  /** An account record: an object whose fields hold JSON primitives. */
  type Account = map<string, Value>

  /** The static user table, keyed by username (so usernames are unique). */
  type UserTable = map<string, Account>

  /** The login payload; a property the client did not send is `None`. */
  datatype Payload = Payload(username: Option<Value>, password: Option<Value>)

  /** What the credential check hands to its callback: an error message, or an account. */
  datatype UserLookup = UserError(message: string) | UserFound(account: Account)

  const MissingMessage: string := "Missing username or password"
  const InvalidMessage: string := "Invalid username or password"
  const PasswordField: string := "password"

  /** Reading property `name` of an account; `None` is `undefined`. */
  function Field(account: Account, name: string): Option<Value>
  {
    if name in account then Some(account[name]) else None
  }

  /** A copy of the account with `password` deleted. */
  function Sanitize(account: Account): (r: Account)
    ensures PasswordField !in r
    ensures r.Keys == account.Keys - {PasswordField}
    ensures forall f :: f in r ==> r[f] == account[f]
  {
    account - {PasswordField}
  }

  /** Deleting `password` a second time changes nothing. */
  lemma SanitizeIdempotent(account: Account)
    ensures Sanitize(Sanitize(account)) == Sanitize(account)
  {
  }

  /** Both credentials are present and truthy. */
  predicate HasCredentials(p: Payload)
  {
    IsTruthy(p.username) && IsTruthy(p.password)
  }

  /** The payload names account `name` of the table and carries exactly its stored password. */
  ghost predicate Authentic(users: UserTable, p: Payload, name: string)
  {
    && HasCredentials(p)
    && ToJsString(p.username.value) == name
    && name in users
    && Field(users[name], PasswordField) == p.password
  }

  /**
   * The credential check. It rejects a payload without both credentials
   * before any lookup, rejects an unknown name or a wrong password with one
   * and the same message, and otherwise returns the matching account
   * without its password.
   */
  function GetUser(users: UserTable, payload: Payload): (r: UserLookup)
    ensures r == UserError(MissingMessage) <==> !HasCredentials(payload)
    ensures r == UserError(InvalidMessage) <==>
              HasCredentials(payload) && !exists name :: Authentic(users, payload, name)
    ensures r.UserFound? <==> exists name :: Authentic(users, payload, name)
    ensures forall name :: Authentic(users, payload, name) ==> r == UserFound(Sanitize(users[name]))
    ensures r.UserFound? ==> PasswordField !in r.account
  {
    if !HasCredentials(payload) then
      UserError(MissingMessage)
    else
      var name := ToJsString(payload.username.value);
      if name !in users || Field(users[name], PasswordField) != payload.password then
        UserError(InvalidMessage)
      else
        assert Authentic(users, payload, name);
        UserFound(Sanitize(users[name]))
  }

  /** The credential check only reads the table: its answer depends on the payload's own account alone. */
  lemma GetUserIgnoresOtherAccounts(users: UserTable, payload: Payload, other: string, account: Account)
    requires HasCredentials(payload)
    requires other != ToJsString(payload.username.value)
    ensures GetUser(users[other := account], payload) == GetUser(users, payload)
  {
  }

  /**
   * The four logins of the route's tests, for any table whose `foo` account
   * has password `foo` and that has no `foop` account.
   */
  lemma LoginScenarios(users: UserTable)
    requires "foo" in users && Field(users["foo"], PasswordField) == Some(Str("foo"))
    requires "foop" !in users
    ensures GetUser(users, Payload(Some(Str("foo")), Some(Str("foo")))) == UserFound(Sanitize(users["foo"]))
    ensures GetUser(users, Payload(Some(Str("foo")), Some(Str("wrong")))) == UserError(InvalidMessage)
    ensures GetUser(users, Payload(None, Some(Str("foo")))) == UserError(MissingMessage)
    ensures GetUser(users, Payload(Some(Str("foop")), Some(Str("foo")))) == UserError(InvalidMessage)
  {
  }
}
