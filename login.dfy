/**
 * The `/login` route handler: redirect a request that already holds a
 * session, otherwise run the credential check, store a session record in the
 * server's session cache under an id derived from the account id, and only
 * once that write has succeeded issue the session cookie.
 */
module Login {

  import opened JsValues
  import opened Credentials

  /** The record cached for a session: `{ account: <account without password> }`. */
  datatype SessionRecord = SessionRecord(account: Account)

  /**
   * A cache entry: the stored record and the time-to-live it was stored with.
   * A TTL of 0 asks for the cache's own configured expiry (its `expiresIn`).
   */
  datatype CacheEntry = CacheEntry(record: SessionRecord, ttl: nat)

  /** The contents the session cookie seals: `{ sid }`. */
  datatype SessionCookie = SessionCookie(sid: string)

  /** The reply of the handler. */
  datatype Reply =
    | Redirect(location: string)    // 302 with a Location header
    | Unauthorized(message: string) // 401 with `{ message }`
    | RawError(error: Value)        // the cache's error value, replied as is

  const LandingPage: string := "/home"
  /** The TTL the handler passes to `cache.set`: 0, the cache's configured expiry. */
  const LoginTtl: nat := 0
  const IdField: string := "id"

  /** `String(account.id)`: the session id of an account. */
  function SessionId(account: Account): string
  {
    if IdField in account then ToJsString(account[IdField]) else UndefinedString
  }

  /** Two accounts whose ids are distinct numbers, or distinct strings, get distinct session ids. */
  lemma SessionIdsDistinct(a: Account, b: Account)
    requires IdField in a && IdField in b && a[IdField] != b[IdField]
    requires (a[IdField].Num? && b[IdField].Num?) || (a[IdField].Str? && b[IdField].Str?)
    ensures SessionId(a) != SessionId(b)
  {
    if a[IdField].Num? {
      NumberToStringInjective(a[IdField].n, b[IdField].n);
    }
  }

  /** The entry a successful login of `name` stores. */
  function SessionEntry(users: UserTable, name: string): CacheEntry
    requires name in users
  {
    CacheEntry(SessionRecord(Sanitize(users[name])), LoginTtl)
  }

  /**
   * What a cache filled only by logins holds: every entry is the password-free
   * account of some user of the table, stored under that account's session id
   * with the login TTL.
   */
  ghost predicate SessionsOf(users: UserTable, entries: map<string, CacheEntry>)
  {
    forall sid :: sid in entries ==>
      exists name :: name in users && entries[sid] == SessionEntry(users, name) && sid == SessionId(Sanitize(users[name]))
  }

  /** No cached session of such a cache carries a password. */
  lemma SessionsHoldNoPassword(users: UserTable, entries: map<string, CacheEntry>, sid: string)
    requires SessionsOf(users, entries)
    requires sid in entries
    ensures PasswordField !in entries[sid].record.account
  {
  }

  /** The server's session cache (`server.app.cache`). */
  class SessionCache {
    var entries: map<string, CacheEntry>

    constructor ()
      ensures entries == map[]
    {
      entries := map[];
    }

    /**
     * `cache.set(key, value, ttl, callback)`. The outcome of the write is an
     * input: `fault` is the error value the cache hands to the callback. A
     * truthy error means the write failed and stored nothing; no error, or a
     * falsy one, means the entry was stored.
     */
    method Set(key: string, record: SessionRecord, ttl: nat, fault: Option<Value>) returns (err: Option<Value>)
      modifies this
      ensures err == fault
      ensures IsTruthy(fault) ==> entries == old(entries)
      ensures !IsTruthy(fault) ==> entries == old(entries)[key := CacheEntry(record, ttl)]
    {
      err := fault;
      if !IsTruthy(fault) {
        entries := entries[key := CacheEntry(record, ttl)];
      }
    }
  }

  /** A request to `/login`, with the session cookie slot of its response. */
  class LoginRequest {
    const isAuthenticated: bool
    const payload: Payload
    var cookie: Option<SessionCookie>

    constructor (isAuthenticated: bool, payload: Payload)
      ensures this.isAuthenticated == isAuthenticated && this.payload == payload
      ensures cookie == None
    {
      this.isAuthenticated := isAuthenticated;
      this.payload := payload;
      cookie := None;
    }
  }

  /**
   * The `/login` handler. `request.isAuthenticated` is what session
   * resolution decided before the handler ran; `cacheFault` is the outcome of
   * the one cache write.
   */
  method HandleLogin(users: UserTable, cache: SessionCache, request: LoginRequest, cacheFault: Option<Value>)
    returns (reply: Reply)
    modifies cache, request
    // Already signed in: straight to the landing page, nothing written.
    ensures request.isAuthenticated ==>
              reply == Redirect(LandingPage) && cache.entries == old(cache.entries) && request.cookie == old(request.cookie)
    // Rejected credentials: 401 with the check's own message, nothing written.
    ensures !request.isAuthenticated && GetUser(users, request.payload).UserError? ==>
              && reply == Unauthorized(GetUser(users, request.payload).message)
              && cache.entries == old(cache.entries) && request.cookie == old(request.cookie)
    // Cache write failed (a truthy error): the raw error, no session and no cookie (fail-closed).
    ensures !request.isAuthenticated && GetUser(users, request.payload).UserFound? && IsTruthy(cacheFault) ==>
              && reply == RawError(cacheFault.value)
              && cache.entries == old(cache.entries) && request.cookie == old(request.cookie)
    // Success (no error, or a falsy one): exactly one entry written, under the account's session id, then the cookie.
    ensures !request.isAuthenticated && GetUser(users, request.payload).UserFound? && !IsTruthy(cacheFault) ==>
              var account := GetUser(users, request.payload).account;
              && reply == Redirect(LandingPage)
              && cache.entries == old(cache.entries)[SessionId(account) := CacheEntry(SessionRecord(account), LoginTtl)]
              && request.cookie == Some(SessionCookie(SessionId(account)))
    // A cookie is only ever issued for a session that is in the cache.
    ensures request.cookie != old(request.cookie) ==>
              request.cookie.Some? && request.cookie.value.sid in cache.entries
    // Logins keep the cache a cache of password-free sessions of known users.
    ensures SessionsOf(users, old(cache.entries)) ==> SessionsOf(users, cache.entries)
  {
    if request.isAuthenticated {
      return Redirect(LandingPage);
    }

    var user := GetUser(users, request.payload);
    if user.UserError? {
      return Unauthorized(user.message);
    }

    var userAccount := Sanitize(user.account);
    SanitizeIdempotent(user.account);
    var sid := SessionId(userAccount);
    ghost var name: string :| Authentic(users, request.payload, name);

    var err := cache.Set(sid, SessionRecord(userAccount), LoginTtl, cacheFault);
    if IsTruthy(err) {
      return RawError(err.value);
    }
    assert cache.entries[sid] == SessionEntry(users, name);

    request.cookie := Some(SessionCookie(sid));
    reply := Redirect(LandingPage);
  }
}
