# Auth session lifecycle and user table of a Deno/Hono/Deno KV REST backend

This Dafny project models the authentication core of a REST backend that keeps
its state in two Deno KV databases:

- `auth_session_db`, with session records under `["auth_sessions", id]` and a
  by-user index `["auth_sessions_by_user_id", userId] → id`;
- `user_db`, with user values under `["users_by_id", id]` and an email index
  `["users_by_email", email] → ["users_by_id", id]`.

Each database is a class whose fields are those maps (`Auth.AuthSessionDb`,
`Users.UserDb`). The services are methods that read and write the maps in the
code's order: session creation, deny-list append ("upsert"), deny-list
membership, session delete, logout, token refresh, and the user create, read,
update and delete operations. Login and register are methods over both
databases. `verifyPayload` and the `Option` combinators are
functions, and `updateFieldInObject` is a method with the `reduce` loop.

Stored values are JavaScript values (`JsValues.Value`: string, object, array).
This matters because `createUserService` stores the one-element list
`[userRecord]`, while every reader treats the stored value as a bare record.
Reading `.id` or `.password` on that list gives `undefined`. So login
right after registration never yields tokens. bcrypt's `compare` first gets an
`undefined` hash (resources/auth/services.ts:304). If it rejects, login returns
401 "Invalid credentials". If it accepts, the session store refuses `undefined`
as the user-id key part, and login reports 500 "Error creating session".
`Auth.RegisterUser` states this outright (`ensures r.Err?`). The case where
`compare` throws on the `undefined` hash ends in a `catch` path, which is left
out.

The external collaborators are parameters:

- the bcrypt `compare` is `compare: (string, Option<Value>) -> bool`;
- the JWT `sign` is `sign: (JwtPayload, string) -> string`;
- the JWT `verify` is an oracle `verifyJwt: (string, string) -> JwtOutcome` that either returns or throws an error with an optional name;
- `ulid()` is `newId` / `newSessionId` / `newUserId`;
- `new Date().toISOString()` is `now` / `nowIso`, `Date.now()` is `nowMs`;
- the two environment seeds are `Env`.

`verifyPayload` is declared `(seed, token)` and calls `verify(token, seed)`,
but both call sites pass `(token, seed)`. The model keeps that order, so the
verifier receives the seed in the token position. No contract claims that a
correctly signed token verifies.

Invariants:

- `AuthSessionDb.Valid` holds when each session sits under its own id and the
  by-user index maps the owner of every live session to that session. A store
  where it holds has at most one live session per user.
- `UserDb.Valid` holds when every stored user is reachable from some email.

Every method of the two classes, and `Auth.LoginUser` and `Auth.RegisterUser`,
ensures `old(Valid()) ==> Valid()` for each database it writes. None requires
`Valid`, because the code does not check it. The `Scenarios` methods start
from arbitrary stores and say nothing about `Valid`.

Where the code does something other than its own routes and messages
announce, the model follows the code. For example, resources/auth/routes.ts:117
answers "User registered and logged in".
- A session can be created only if the by-user index has **never** held the
  user. The index entry has no expiry and is never removed. So the limit is not
  "no active session": a second session fails even after logout or expiry.
- Register does not log the new user in (see above), whatever that route's message says. A failure to create the
  user is passed on unchanged, e.g. 400 "User already exists". It is not
  turned into an internal error.
- The deny-list is a list that may hold duplicates, not a set.
- When the access token fails verification for any reason but expiry, the
  refresh flow appends the presented **refresh** token to the deny-list.

## Model

| member | source | states |
|---|---|---|
| `OptionMonad.ToOptional` | monads/option.ts:28-38 | the lifted guard returns `some(arg)` exactly when the guard accepts `arg`, and `none` otherwise |
| `OptionMonad.OptionalDefined` | monads/option.ts:40-42 | `some(x)` exactly when `x` is neither `undefined` nor `null`; `none` exactly when it is one of them |
| `OptionMonad.Unwrap` | monads/option.ts:44-51 | on `some(v)` returns `v`; the throw on `none` is a precondition |
| `OptionMonad.UnwrapOr` | monads/option.ts:53-58 | `some(v)` gives `v`, `none` gives the default |
| `OptionMonad.UnwrapOrElse` | monads/option.ts:60-65 | `some(v)` gives `v`, `none` gives `fn()` |
| `OptionMonad.UnwrapExpect` | monads/option.ts:67-72 | like `unwrap`: on `some(v)` returns `v`; the throw with the message is a precondition |
| `OptionMonad.UnwrapWithResult` | monads/option.ts:74-81 | `some(v)` gives `Ok v`, `none` gives `Error e`, and the result is `Ok` exactly for a `some` |
| `OptionMonad.UnwrapFamilyAgrees` | monads/option.ts:44-81 | `unwrapOr` equals `unwrapWithResult` with the error replaced by the default; `unwrapOrElse` with a constant equals `unwrapOr`; on a `some`, `unwrap`, `unwrapExpect` and `unwrapOr` agree |
| `OptionMonad.OptionalDefinedRoundTrip` | monads/option.ts:40-58 | `unwrapOr(optionalDefined(x), d)` is `x` when `x` is defined and `d` otherwise |
| `Utils.UpdateFieldInObject` | utils.ts:1-15 | the result has exactly the input's keys (an absent field is not added); a present `fieldToUpdate` maps to `valueToUpdate`; every other key keeps its value; the input is a value and is not changed |
| `Utils.FieldUpdatedIdempotent` | utils.ts:6-14 | applying the update twice with the same arguments equals applying it once |
| `Utils.FieldUpdatedAbsentField` | utils.ts:6-14 | a `fieldToUpdate` that is not a key leaves the record equal to the input |
| `JsValues.NamedFieldOfArray` | resources/auth/services.ts:293-304 | reading a named property such as `password` or `id` off a stored array gives `undefined` |
| `JsValues.SpreadSingleton` | resources/user/services.ts:173-177 | spreading the stored one-element list gives the single property `"0"` holding the record |
| `Users.NewUserRecord` | resources/user/services.ts:36-41 | the new record holds the schema's fields plus `id`, `created_at` and `updated_at`, and nothing else; `id` is the fresh id, both timestamps are `now`, `email` is the schema's email |
| `Users.UpdatedUserRecord` | resources/user/services.ts:173-177 | the written record has the old properties plus `fieldToUpdate` and `updated_at`; `fieldToUpdate` holds the new value and `updated_at` holds `now` (that key wins); every other property keeps its old value |
| `Users.UpdateOfRegistered` | resources/user/services.ts:173-177 | updating a freshly created user, whose stored value is `[record]`, writes an object holding the record under `"0"`, the updated field and `updated_at` |
| `Users.UserDb.StoredUserReachable` | resources/user/services.ts:43-58 | in a table where every stored id is indexed, which create keeps, every stored user is found by some email lookup |
| `Users.UserDb.CreateUser` | resources/user/services.ts:26-61 | an indexed email gives 400 "User already exists" and writes nothing; otherwise it stores `[record]` under the new id, indexes the email to that id and returns 201 with the bare record; existing index entries never change |
| `Users.UserDb.GetUserById` | resources/user/services.ts:84-95 | an absent id gives 404 "User not found"; otherwise 200 with the stored value; reads only |
| `Users.UserDb.GetUserByEmail` | resources/user/services.ts:116-136 | 404 exactly when the email is not indexed or its record is gone; otherwise 200 with the stored value; reads only |
| `Users.UserDb.UpdateUser` | resources/user/services.ts:163-192 | an absent id gives 404 and writes nothing; otherwise it stores and returns the updated record; the email index is untouched |
| `Users.UserDb.DeleteUser` | resources/user/services.ts:213-227 | an absent id gives 404; otherwise it removes only the primary key and returns 200; the email index is untouched |
| `Auth.RefreshTokenPayload` | resources/auth/services.ts:323-329 | refresh claims carry the user id and session id, with `exp = now + 86400000` and `nbf = iat = now` |
| `Auth.AccessTokenPayload` | resources/auth/services.ts:362-368 | access claims carry the user id and session id, with `exp = now + 900000` and `nbf = iat = now` |
| `Auth.VerifyErrorFor` | resources/auth/services.ts:583-631 | only `JwtTokenExpired` gives "Token expired"; the six token and header errors give 400; `JwtAlgorithmNotImplemented` and every other or missing name give 500, the latter with "Error verifying token: " and the name or "Unknown error"; logout is never triggered |
| `Auth.ClientTokenErrorsDistinct` | resources/auth/services.ts:590-624 | the six 400 errors have pairwise distinct messages |
| `Auth.VerifyPayload` | resources/auth/services.ts:571-633 | `Ok(true)` with "Token verified" exactly when `verify(token, seed)` returns; otherwise the error `VerifyErrorFor` gives for the thrown name |
| `Auth.ExpiredOnlyForJwtTokenExpired` | resources/auth/services.ts:458-494 | the refresh flow rotates exactly when the oracle throws `JwtTokenExpired`, and revokes exactly when it throws anything else |
| `Auth.WithDeniedToken` | resources/auth/services.ts:233-234 | the deny-list becomes old ++ [token] and `updated_at` is `now`; `id`, `user_id` and `created_at` are unchanged |
| `Auth.AuthSessionDb.OneLiveSessionPerUser` | resources/auth/services.ts:112-147 | in a valid store two live sessions of the same user are the same session |
| `Auth.AuthSessionDb.IsTokenInDenyList` | resources/auth/services.ts:62-85 | an absent session gives 404 "Session not found"; otherwise 200, reporting true exactly when the token is on the deny-list, with the matching message; reads only |
| `Auth.AuthSessionDb.CreateNewAuthSession` | resources/auth/services.ts:112-161 | an indexed user gives 400 "Auth session already exists" and writes nothing; otherwise it writes a record with an empty deny-list, `user_id = userId` and the new id, maps the index to that id and returns the id with 201; `Valid` is preserved |
| `Auth.AuthSessionDb.DeleteAuthSession` | resources/auth/services.ts:183-196 | removes only the primary key and succeeds with `triggerLogout` whether or not the session existed; the index is untouched |
| `Auth.AuthSessionDb.UpsertAuthSessionTokens` | resources/auth/services.ts:220-255 | a missing session gives 404 and writes nothing; otherwise it writes and returns `WithDeniedToken` of the record, after which the token is denied; no deny-list entry is ever lost |
| `Auth.AuthSessionDb.TokensRefresh` | resources/auth/services.ts:424-546 | the decision table: missing session 404, deny-listed token 401, missing seed 500 (all write nothing); a non-expiry refresh error, checked first, or access error appends the presented refresh token and gives 401; an expired token is replaced by a freshly signed one and a valid one is returned unchanged; success writes nothing; every error triggers logout |
| `Auth.AuthSessionDb.LogoutUser` | resources/auth/services.ts:558-569 | removes only the primary key and always succeeds with 200 and `triggerLogout`; the index survives |
| `Auth.LoginUser` | resources/auth/services.ts:271-380 | the failure ladder in order: empty email or password 400; no index entry or no record 404; password mismatch 401; no string id or an indexed user 500 "Error creating session" (nothing written before this point); then the session is written and a missing refresh or access seed gives 500; success returns the record and both signed tokens |
| `Auth.RegisterUser` | resources/auth/services.ts:392-406 | an existing email gives `createUserService`'s 400 unchanged; otherwise the user is stored and the result is what login gives for the stored list: 400, 401 or 500 "Error creating session", never tokens; no session is written |
| `Scenarios.SessionAfterLogoutRefused` | resources/auth/services.ts:112-122 | create, logout, create for the same user: the second create is refused with 400 |
| `Scenarios.LoginAfterLogoutFails` | resources/auth/services.ts:313-320 | after a successful login and a logout, the same login fails with 500 "Error creating session" |
| `Scenarios.RevokedRefreshTokenStaysRevoked` | resources/auth/services.ts:437-445 | after a refresh that revoked its refresh token, a refresh with that token fails as deny-listed whatever the verifier says; the session stays |
| `Scenarios.AppendedTokenIsDenied` | resources/auth/services.ts:75-78 | after a successful append, the membership query reports the token as in the deny list |
| `Scenarios.DeletedUserEmailStaysTaken` | resources/user/services.ts:26-34 | create, delete, create with the same email: the second create fails with 400 "User already exists" |

## Left out

- `getAllAuthSessionsService`: a prefix listing of the store with a limit of 10; store plumbing.
- Opening and closing the databases, the null-database checks, failed `set`/commit results and the `try`/`catch` 500 branches. This includes bcrypt, `sign` or the store throwing.
- The store's 1-day expiry of session records, and the renewal of that expiry on each upsert: the store model has no clock.
- `Date.now()` is called separately for `exp`, `nbf` and `iat`, and `toISOString()` separately for `created_at` and `updated_at`. The model uses one instant for each call.
- `ulid()` is a parameter. A colliding id overwrites, as the store's `set` does.
- `createHttpErrorResult` and `createHttpSuccessResult` are not part of this model. They are taken to produce the message, the status, and `triggerLogout` (default false); success defaults to status 200. The `kind` field is not modelled.
- `Auth.LoginUser` and `Auth.RegisterUser`: `createHttpSuccessResult` is taken to return `data` as given. That is how resources/auth/services.ts:322, resources/auth/services.ts:404 and middlewares/verifyJWTs.ts:51 read it, although types.ts:5 declares `data` a one-element tuple and resources/auth/handlers.ts:30 reads `data?.[0]`. If the helper wraps `data`, register passes an `undefined` email to login, and login ends in its `catch` path (500 "Error logging in: …"). Login would also sign `sessionId: [id]`. Neither case is modelled.
- `optionalCatch` and `optionalResolve`: exception and promise catching.
- `OptionMonad.ToOptional`: does not model the `catch` around the guard, because Dafny functions cannot throw; the narrowing to `Output` is not expressible either.
- `OptionMonad.UnwrapOrElse`: does not state that `fn` is called only on `none`, because calls of a pure function are not observable.
- `OptionMonad.UnwrapExpect`: the message is not observable, because the throw is a precondition.
- Properties of JavaScript values other than own keys: `length`, prototype members.
- Request bodies that carry fields beyond `UserSchema`: the schema is typed.
- `getUserByEmailService` is not exported in the source; it is modelled anyway.
- HTTP routes, handlers, the JWT middleware, cookies, `main.ts`, the superseded scaffolds and the console logging.
- Concurrency: the model is sequential, so races between refresh calls or between creates are not represented.
