# cookie-auth: credential check, login handler and route gate

A model of the bespoke logic of the `cookie-auth` demonstration server: the
plugin in `lib/resources.js` that authenticates users with a session cookie on
top of the hapi framework and its `hapi-auth-cookie` plugin.

- **Credential check** (`getUser`): a payload `{ username, password }` is
  checked against a static user table keyed by username. A payload without a
  truthy username and a truthy password fails with
  `'Missing username or password'` before any lookup. An unknown name or a
  wrong password fails with `'Invalid username or password'`. Otherwise the
  result is a copy of the account without its `password` field.
- **Login handler** (`POST /login`): a request that already holds a session
  is redirected to `/home` untouched. A rejected credential check becomes a
  401 reply carrying the check's message. Otherwise the handler writes
  `{ account }` into the server's session cache, under `String(account.id)`
  and with TTL 0, which leaves expiry to the cache's configured `expiresIn`.
  If the cache reports a truthy error, the reply is that raw error and no
  cookie is set; the callback tests `if (err)`, so a falsy error counts as
  success. Only after a successful write is the cookie `{ sid }` set
  and the client redirected to `/home`.
- **Route gate**: all three routes use the `session` strategy in mode `try`.
  `/auth` and `/login` run their handlers whether or not a session was
  resolved; `/restricted` redirects an unauthenticated request to the login
  page.

Modules: `JsValues` (JSON primitives, truthiness, `String(v)` with its decimal
notation of integers), `Credentials` (`getUser`), `Login` (session cache,
request, handler), `RouteGate` (gate policy and the two GET handlers).

JavaScript is modelled explicitly where it decides outcomes. A missing
property is `undefined` (`None`) and is falsy. Truthiness follows JavaScript,
so `""`, `0`, `false` and `null` count as missing credentials too; the code
tests truthiness, not only presence or emptiness. A table lookup `Users[x]`
uses `String(x)` as the key, so a numeric username `5` finds account `"5"`.
The password comparison is strict (`!==`), so the number `5` does not match a
stored string `"5"`. The session id is `String(account.id)`; an account
without an `id` gets the session id `"undefined"`.

The code stores the record `{ account }` under the session id. It does not
store a `{ sessionId, account }` pair, and the model follows the code.

## Model

| member | source | states |
|---|---|---|
| `Credentials.GetUser` | lib/resources.js:12-40 | The result is `'Missing username or password'` exactly when username or password is falsy or absent. It is `'Invalid username or password'` exactly when both are given but no account of the table has that name and that stored password. Otherwise it is a success, and the account returned is the matching stored account without `password`. |
| `Credentials.Sanitize` | lib/resources.js:36-37 | The copy has no `password` field, has every other field of the account, and each of those fields has the account's value. |
| `Credentials.SanitizeIdempotent` | lib/resources.js:110-112 | The handler's second clone-and-delete leaves the already sanitized account unchanged. |
| `Credentials.GetUserIgnoresOtherAccounts` | lib/resources.js:26-32 | Adding or replacing any other account of the table does not change the outcome for a payload. |
| `Credentials.LoginScenarios` | test/resources.js:78-149 | For a table whose `foo` has password `foo` and that has no `foop`: `foo`/`foo` succeeds, `foop`/`foo` is invalid, and a payload with no username is missing credentials, as the route tests expect. It adds one case the tests do not have: `foo`/`wrong` is invalid. |
| `JsValues.NatToDecimal` | lib/resources.js:111 | The decimal notation used by `String(id)` is non-empty, made only of digits, and has no leading zero. |
| `JsValues.DecimalRoundTrip` | lib/resources.js:111 | Reading the decimal notation of `n` back gives `n`. |
| `JsValues.NatToDecimalInjective` | lib/resources.js:111 | Distinct natural numbers have distinct decimal notations. |
| `JsValues.NumberToStringInjective` | lib/resources.js:111 | Distinct integers, negative ones included, have distinct `String(n)`. |
| `Login.SessionIdsDistinct` | lib/resources.js:111 | Accounts whose ids are distinct numbers, or distinct strings, get distinct session ids, so their sessions do not overwrite each other. |
| `Login.SessionsHoldNoPassword` | lib/resources.js:110-114 | In a cache filled only by logins, no cached session carries a `password` field. |
| `Login.SessionCache.Set` | lib/resources.js:114-118 | The cache write reports the injected error value. A truthy error leaves the cache as it was. No error, or a falsy one, stores exactly the one entry under the key with the given TTL. |
| `Login.HandleLogin` | lib/resources.js:98-124 | An authenticated request gets a redirect to `/home`, and cache and cookie stay unchanged. Rejected credentials get a 401 with the check's message verbatim, with nothing changed. A cache write that reports a truthy error gets that raw error, with no session stored and no cookie. A write with no error or a falsy one is a success, since the callback tests `if (err)`. A success stores exactly `String(id) -> { account }` with TTL 0, leaves all other keys unchanged, sets cookie `{ sid }`, and redirects to `/home`. Any cookie issued refers to a cached session. The cache keeps holding only password-free sessions of known users. |
| `RouteGate.Decide` | lib/resources.js:61-96 | In mode `try`, a resolved session always runs the handler with identity. An unresolved one redirects to login exactly when the route's `redirectTo` is set, and otherwise runs the handler without identity. |
| `RouteGate.ServePage` | lib/resources.js:61-89 | `/auth` replies with its greeting whatever the session state. `/restricted` serves its content exactly to authenticated requests and redirects to login exactly the others. |
| `RouteGate.LoginAlwaysReachesHandler` | lib/resources.js:94-96 | `/login` has `redirectTo: false`, so its handler always runs, with the session state as resolved. |

## Left out

- Plugin registration and dependency ordering (`register`, `server.dependency`, lines 42-56): these are framework composition at start-up, not per-request logic.
- Session resolution, cookie sealing and decryption, and expiry timing belong to `hapi-auth-cookie` and the cache engine. The handler stores TTL 0, and the cache then applies its configured `expiresIn`. Sessions do expire (the tests set 200 ms), but the model does not model time. Whether a request is authenticated is an input to the model.
- The strategy-level cookie settings (the `redirectTo` target, `redirectOnTry`) are in `lib/cookie-auth.js`, which is not part of this model. The gate assumes they make an unauthenticated `try` request redirect when the route asks for it, which is what the tests observe (a 302). The redirect target is left abstract.
- `RouteGate.Decide`: only the route-level `redirectTo` option and mode `try` are modelled. The framework's `required` and `optional` modes are not used by these routes.
- The HTTP-to-HTTPS 301 redirect and the TLS connection setup are server configuration.
- Status codes and headers: `Boom.unauthorized` is the `Unauthorized` reply, and `reply(err)` is the `RawError` reply. The framework sends the first as 401 with a JSON body and the second as 200.
- `Login.SessionCache.Set`: whether the cache write fails is an input. The model assumes that a write reporting a truthy error stores nothing, as the failing cache of the tests does. It also assumes that a write reporting no error or a falsy one stored the entry. A cache that reports a falsy error without storing is not modelled.
- Cache error values are JSON primitives. An `Error` object is truthy, like a non-empty message, and is not represented.
- `Hoek.clone` is a value copy here, because datatypes and maps are values. Aliasing between the table and the returned account cannot arise in the model.
- A request with no body: `request.payload` is then `null`, and reading `payload.username` at line 20 throws. The framework turns that into a 500 reply. The model's payload is always an object.
- Non-primitive payload fields (objects, arrays) are not modelled. Neither is their string form as a table key.
- Account fields are JSON primitives. An account field holding an array or an object cannot be represented, so the deep copy `Hoek.clone` makes of such a field is not modelled. Neither is `String(id)` of a non-primitive id (such as `"1,2"` or `"[object Object]"`).
- Numbers are integers. Fractions, exponent notation for large numbers, `NaN` and `-0` are not modelled.
- Inherited object properties such as `constructor` or `__proto__` used as a username are treated as absent names. In JavaScript they resolve to an object without a `password`, so the outcome is the same: `'Invalid username or password'`.
- The contents of `users.json` are not known. The table is a parameter, and `LoginScenarios` assumes only what the tests rely on.
- Callbacks are modelled as return values. The early lookup at line 17 has no effect and is not modelled.
- Concurrent requests are not modelled. Each call of the handler runs to completion before the next.
- Test helpers (`test/generateSession.js`, the cookie regular expression) are not modelled.
