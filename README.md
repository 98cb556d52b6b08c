# Authentication and session subsystem of a full-stack template, in Dafny

This project models the server and client code of a Hono/PostgreSQL/Redis
web template that signs users up, logs them in with a short-lived access token
and a week-long refresh cookie, refreshes and clears that cookie, and limits the
request rate. On the browser side it models the axios interceptors and the React
provider that hold the session.

Each core source file is one Dafny module:

| module | file | form |
|---|---|---|
| `RateLimiter` | `rate_limiter.dfy` | class over a shared counter store (`map` from key to count and optional deadline) with a clock; pure `RateLimit` specification |
| `AuthService` | `auth_service.dfy` | `Service` class calling the `Users` table and an `Argon2` object; pure `SignupOutcome` / `LoginOutcome` specifications |
| `AuthRoutes` | `auth_routes.dfy` | pure status/body mappings; `Routes` handlers writing `Set-Cookie` headers into a `Context` |
| `App` | `app.dfy` | `Application` built by `Use` calls; CORS, limits table, stacked limiters, `onError`, `/api/me` |
| `Env` | `env.dfy` | pure: `requireEnv`, `Number(...)` defaults, the `env` object |
| `RedisCache` | `redis_cache.dfy` | back-off function; `Client` class with open flag, store and clock |
| `Database` | `database.dfy` | `query` as a function; `Pool.WithTransaction` appending to an event trace |
| `Schema` | `schema.dfy` | the `users` rows and their constraints; `Users.Insert` |
| `ApiClient` | `api_client.dfy` | `Browser` (storage, location), `RequestConfig`, `Api` interceptors |
| `AuthProvider` | `auth_provider.dfy` | `Provider` class over user, loading flag and storage |

The helper modules are `Wrappers` (Option, Result, Error), `Text` (JavaScript
`trim`, `split(...)[0]`, `includes`, decimal rendering) and `Jwt`. `Jwt` models
HS256 JWTs per section 4.1 of RFC 7519 and section 3.2 of RFC 7518. A token is
its claims tagged with the secret that signed it. `verify` accepts a token
exactly under that secret, before `exp`.

The outside world appears only as parameters:

- the clock (`now`, `nowMs`);
- the salt argon2 draws;
- the verdict of `argon2.verify`;
- the column defaults `id` and `createdAt`;
- failures of Redis, PostgreSQL and the network;
- the settled outcome of each HTTP call the browser makes.

### Where the code disagrees with itself (the model follows what runs)

- **Conflict test.** The sign-up route answers 409 when the error message contains "already registered" or "already taken" (`server/src/routes/auth.routes.ts:25`).
  - The service never produces "already taken". Its only conflict messages are "Email already registered" and "Username already registered" (`server/src/services/auth.service.ts:17-18`).
  - The insert-race message "Conflict: User data updated simultaneously. Please try again." passes neither test (`AuthRoutes.RaceConflictIsNotConflict`). A lost race therefore answers 500, not 409.
- **Where the access token lives.** The comment at `server/src/routes/auth.routes.ts:51` says the front end keeps the token in memory. The provider writes it to `localStorage` (`client/src/context/AuthProvider.tsx:18`), and the model does the same.
- **The `User` type.** `client/src/context/AuthContext.tsx:3-6` declares a user as `{username, email}`.
  - After a log-in the provider stores the `user` object of the reply, which has those fields.
  - After a reload `initAuth` stores the `/api/me` body `{message, userId}` (`server/src/app.ts:79-82`), which has neither.
  - A restored session therefore has no `username` or `email` (`AuthProvider.RestoredUserLacksProfile`).
- **Rate window.** The rate limiter counts in a fixed window: the deadline is set by the first request and later requests do not move it (`RateLimiter.FixedWindow`).
  - The two production limiters build the same key and share one store, so each `/api/auth/...` request counts twice.
  - In a production window the third request to an auth path is refused, not the sixth (`App.ThirdAuthRequestRejected`).

The model also exhibits these behaviours:

- a client-chosen `X-Forwarded-For` identity;
- colliding rate-limit keys for paths containing `:` (`KeyCollision`);
- a permanent lock-out when `EXPIRE` fails after the first `INCR` (`CounterWithoutDeadlineLocksOut`);
- with equal secrets, an access token accepted as a refresh token (`RefreshNeedsRefreshToken`).

## Model

| member | source | states |
|---|---|---|
| RateLimiter.ClientIdentity | server/src/middleware/rateLimiter.ts:13-16 | the identity used in the key is never empty |
| RateLimiter.IdentityFromForwardedFor | server/src/middleware/rateLimiter.ts:14 | a non-blank first `X-Forwarded-For` entry, trimmed, is the identity whatever follows it and whatever `cf-connecting-ip` says |
| RateLimiter.IdentityFromCloudflare | server/src/middleware/rateLimiter.ts:15 | without a usable forwarded entry, a non-empty `cf-connecting-ip` is the identity, as sent |
| RateLimiter.IdentityUnknown | server/src/middleware/rateLimiter.ts:16 | with neither header usable the identity is "unknown" |
| RateLimiter.Key | server/src/middleware/rateLimiter.ts:18 | the key is "rate-limit:", then the path, then ':', then the identity, each at its own position |
| RateLimiter.KeyInjective | server/src/middleware/rateLimiter.ts:18 | for paths without ':' two requests share a counter exactly when path and identity agree |
| RateLimiter.KeyCollision | server/src/middleware/rateLimiter.ts:18 | a path containing ':' and an IPv6 identity can build the same key as a different path and identity |
| RateLimiter.Incremented | server/src/middleware/rateLimiter.ts:21 | `INCR` raises a live counter by one keeping its deadline, and restarts an absent or expired one at 1 with no deadline |
| RateLimiter.WithDeadline | server/src/middleware/rateLimiter.ts:24 | `EXPIRE` gives a live key the deadline now + seconds, deletes it for a non-positive value, and ignores an absent key |
| RateLimiter.Decide | server/src/middleware/rateLimiter.ts:27-42 | rejection exactly when count > limit; `X-RateLimit-Limit` is the limit and `X-RateLimit-Remaining` is max(0, limit - count) on both paths and never negative; `Retry-After` = window only on rejection; a rejection answers 429 "Too many requests. Please try again later." |
| RateLimiter.RateLimit | server/src/middleware/rateLimiter.ts:12-47 | one request changes no counter but its own; a failing `INCR` changes nothing; a rejection needs a working store and a post-increment count above the limit; a pass with rate-limit headers has a count within it |
| RateLimiter.FailOpen | server/src/middleware/rateLimiter.ts:43-46 | a failing `INCR`, or a failing first `EXPIRE`, passes the request on with no rate-limit headers, never rejecting it |
| RateLimiter.RejectIffOverLimit | server/src/middleware/rateLimiter.ts:30-42 | with a working store a request is rejected exactly when its post-increment count exceeds the limit |
| RateLimiter.DeadlineSetOnlyOnFirst | server/src/middleware/rateLimiter.ts:23-25 | a live counter keeps its deadline through any later request |
| RateLimiter.NewWindowAfterExpiry | server/src/middleware/rateLimiter.ts:21-25 | after expiry the next request counts 1, passes, and sets the deadline now + window |
| RateLimiter.CounterWithoutDeadlineLocksOut | server/src/middleware/rateLimiter.ts:23-25 | a counter left without a deadline at or above the limit rejects every later request and never gains a deadline |
| RateLimiter.Replay | server/src/middleware/rateLimiter.ts:12-47 | replaying n requests yields n decisions |
| RateLimiter.ReplayInWindow | server/src/middleware/rateLimiter.ts:21-30 | inside a live window request k sees count c + k + 1, rejected exactly when that exceeds the limit, and the deadline stays put |
| RateLimiter.FixedWindow | server/src/middleware/rateLimiter.ts:21-30 | from an absent counter, the requests of one window are rejected from the (limit+1)-th on, and the counter ends at the number of requests with deadline first request + window |
| RateLimiter.CounterStore.Incr | server/src/middleware/rateLimiter.ts:21 | the store command: fails without change, or applies `Incremented` |
| RateLimiter.CounterStore.Expire | server/src/middleware/rateLimiter.ts:24 | the store command: fails without change, or applies `WithDeadline` |
| RateLimiter.Limiter.Handle | server/src/middleware/rateLimiter.ts:11-47 | the middleware's store update and decision are those of `RateLimit` on the key built from path and identity |
| AuthService.AccessClaims | server/src/services/auth.service.ts:66-71 | access claims: sub = user id, role "user", iat = now, exp = iat + 900 |
| AuthService.RefreshClaims | server/src/services/auth.service.ts:73-77 | refresh claims: sub = user id, no role, iat = now, exp = iat + 604800 |
| AuthService.Seconds | server/src/services/auth.service.ts:64 | the whole seconds of a millisecond clock reading (floor) |
| AuthService.SignupOutcome | server/src/services/auth.service.ts:10-44 | a failure leaves the table alone; a success appends exactly one row, holding the hash, whose id, username and email are the result's; an insert fault always fails |
| AuthService.SignupRejectsExisting | server/src/services/auth.service.ts:12-19 | when some row has the email or the username: failure, no hash, table unchanged, message "Email already registered" or "Username already registered", Username when no row has the email, Email when no row has the username |
| AuthService.SignupInsertsOne | server/src/services/auth.service.ts:22-36 | a new user whose row fits the constraints is stored as exactly one appended row with the hash; the result is id, username, email, createdAt only |
| AuthService.SignupInsertFailure | server/src/services/auth.service.ts:37-43 | an insert failure with code 23505 becomes the conflict message, any other is rethrown unchanged; nothing is stored |
| AuthService.SignupHashesOnlyNewUsers | server/src/services/auth.service.ts:11-22 | a hash is computed exactly when no row has the email or the username |
| AuthService.SignupKeepsTableValid | server/src/services/auth.service.ts:24-43 | sign-up keeps the table constraints; it succeeds exactly when the row can be stored and appends the row as stored (the input's own row when it fits the widths); the result carries the stored username and email; a failure changes nothing |
| AuthService.VerifyArgs | server/src/services/auth.service.ts:54-57 | the one verification uses the dummy hash and "dummy_password" when no row has the email, and the stored hash with the input password otherwise |
| AuthService.LoginOutcome | server/src/services/auth.service.ts:46-84 | an error thrown by the verification propagates; every other failure is "Invalid email or password"; a success carries the user with the input email and tokens signed with the access and refresh secrets |
| AuthService.LoginSucceedsIff | server/src/services/auth.service.ts:59-61 | log-in succeeds exactly when a row has the email and the verification matches |
| AuthService.LoginNoEnumeration | server/src/services/auth.service.ts:55-61 | an unknown email and a wrong password fail with the same "Invalid email or password" error |
| AuthService.LoginSession | server/src/services/auth.service.ts:63-83 | a successful log-in returns the user's id, username and email; the access token verifies under JWT_SECRET for 900 s and the refresh token under JWT_REFRESH_SECRET for 604800 s, both with sub = id |
| AuthService.SessionTokensNotInterchangeable | server/src/services/auth.service.ts:66-77 | with distinct secrets neither token verifies under the other's secret |
| AuthService.Argon2.Hash | server/src/services/auth.service.ts:22 | records one hash call and returns the symbolic hash |
| AuthService.Argon2.Verify | server/src/services/auth.service.ts:55-57 | records one verify call and returns its verdict |
| AuthService.Service.Signup | server/src/services/auth.service.ts:10-44 | result and table are those of `SignupOutcome`; argon2 is called once when hashing, never otherwise; table constraints kept |
| AuthService.Service.Login | server/src/services/auth.service.ts:46-84 | exactly one argon2 verification, with `VerifyArgs`; result is `LoginOutcome` at floor(nowMs / 1000) |
| Schema.FindByEmailOrUsername | server/src/services/auth.service.ts:12-14 | finds nothing exactly when no row has the email or the username; a found row is in the table and matches one of them |
| Schema.FindByEmail | server/src/services/auth.service.ts:48-50 | finds nothing exactly when no row has the email; a found row is in the table and has it |
| Schema.ToVarchar | server/src/database/schema.ts:5-6 | a text within n characters is kept; a longer one is accepted exactly when its excess is all spaces, and is then cut to a prefix of at most n characters followed only by spaces |
| Schema.Stored | server/src/database/schema.ts:3-9 | a row can be stored exactly when both texts fit their `varchar` columns; the stored row fits, keeps id, hash and creation time, and is the row itself when it already fits |
| Schema.Violation | server/src/database/schema.ts:4-6 | a row is accepted exactly when it can be stored and the stored id, username and email are all new; an overlong text carries code 22001, a duplicate 23505 |
| Schema.PaddedUsernameCollides | server/src/database/schema.ts:5 | a username padded past 50 characters with spaces is stored cut to 50, so it collides (23505) with a stored username it does not equal |
| Schema.InsertKeepsTableValid | server/src/database/schema.ts:3-9 | appending an accepted row as stored keeps every row within its widths and id, username and email unique |
| Schema.Users.Insert | server/src/database/schema.ts:3-9 | an insert fails with the injected fault or the violation and leaves the rows alone, or appends and returns the row as stored; the table stays valid |
| Jwt.Sign | server/src/services/auth.service.ts:66-77 | a signed token carries its claims, its secret and HS256 |
| Jwt.Verify | server/src/routes/auth.routes.ts:74 | verification succeeds exactly for a token signed with this secret whose exp is later than now, and yields its claims |
| Jwt.SignThenVerify | server/src/routes/auth.routes.ts:74-75 | a token verifies under its secret until exp and returns the signed claims |
| Jwt.OtherSecretRejected | server/src/routes/auth.routes.ts:90-93 | a token signed with one secret never verifies under another |
| Jwt.ExpiredRejected | server/src/routes/auth.routes.ts:90-93 | from exp on a token is rejected as expired |
| AuthRoutes.ProductionAgreesWithConfig | server/src/routes/auth.routes.ts:42 | reading raw `NODE_ENV` for the Secure flag agrees with the configured environment being "production" |
| AuthRoutes.RefreshCookieOptions | server/src/routes/auth.routes.ts:40-46 | cookie options: HttpOnly, SameSite Lax, path "/", the given Max-Age, Secure exactly in production |
| AuthRoutes.SignupResponse | server/src/routes/auth.routes.ts:13-31 | the status is 201, 409 or 500; `success` and `data` are present exactly on 201; no token is sent |
| AuthRoutes.SignupStatus | server/src/routes/auth.routes.ts:13-31 | 201 with `data` exactly on success; 409 with the error's message exactly when it contains "already registered" or "already taken"; 500 "Internal server error" otherwise |
| AuthRoutes.RaceConflictIsNotConflict | server/src/routes/auth.routes.ts:25 | the race message contains neither "already registered" nor "already taken" |
| AuthRoutes.AlreadyRegisteredIsConflict | server/src/routes/auth.routes.ts:25 | both pre-check messages pass the substring test |
| AuthRoutes.SignupConflictStatuses | server/src/routes/auth.routes.ts:23-31 | an existing email or username answers 409; a 23505 from the insert answers 500 "Internal server error" |
| AuthRoutes.PaddedUsernameAnswers500 | server/src/routes/auth.routes.ts:23-31 | a new username equal to a stored 50-character one plus a space passes the pre-check, hashes, collides on insert and answers 500 with the table unchanged |
| AuthRoutes.LoginResponse | server/src/routes/auth.routes.ts:34-61 | the status is 200 or 401; `success` exactly on 200; an access token exactly on success, the session's own |
| AuthRoutes.LoginCookies | server/src/routes/auth.routes.ts:39-46 | at most one cookie, present exactly on success, named `refresh_token` and HttpOnly |
| AuthRoutes.LoginFailureUniform | server/src/routes/auth.routes.ts:55-61 | every log-in failure answers the same 401 "Invalid email or password" and sets no cookie |
| AuthRoutes.LoginSuccessResponse | server/src/routes/auth.routes.ts:39-53 | success answers 200 with accessToken and user and sets `refresh_token` to the refresh token, HttpOnly, Lax, path "/", Max-Age 604800, Secure exactly in production |
| AuthRoutes.LoginBodyHidesRefreshToken | server/src/routes/auth.routes.ts:48-53 | the log-in body's token is never the refresh token |
| AuthRoutes.RefreshWithoutCookie | server/src/routes/auth.routes.ts:66-70 | a missing or empty cookie answers 401 "No refresh token" and mints nothing |
| AuthRoutes.RefreshResponse | server/src/routes/auth.routes.ts:64-94 | the status is 200 or 401; a token exactly on 200, and only for a cookie that verifies under the refresh secret; it is signed with the access secret and expires 900 s after now |
| AuthRoutes.RefreshRejected | server/src/routes/auth.routes.ts:72-93 | a cookie failing verification under the refresh secret answers 401 "Invalid session" and mints nothing |
| AuthRoutes.RefreshMints | server/src/routes/auth.routes.ts:74-89 | a live refresh token yields 200 with one new access token {sub, role "user", iat now, exp now+900} under JWT_SECRET, and nothing else |
| AuthRoutes.RefreshNeedsRefreshToken | server/src/routes/auth.routes.ts:74 | a live access token is accepted as the refresh cookie exactly when the two secrets are equal |
| AuthRoutes.ClearingCookie | server/src/routes/auth.routes.ts:98-104 | log-out sets `refresh_token` to "" with Max-Age 0 and otherwise the log-in attributes |
| AuthRoutes.Context.GetCookie | server/src/routes/auth.routes.ts:66 | the request cookie of that name, if any |
| AuthRoutes.Context.SetCookie | server/src/routes/auth.routes.ts:40 | appends one `Set-Cookie` header |
| AuthRoutes.Routes.Signup | server/src/routes/auth.routes.ts:13-32 | the response is `SignupResponse` of the service outcome; the table changes as the service says |
| AuthRoutes.Routes.Login | server/src/routes/auth.routes.ts:34-62 | the response is `LoginResponse` and the cookies added are `LoginCookies`; one argon2 verification |
| AuthRoutes.Routes.Refresh | server/src/routes/auth.routes.ts:64-94 | the response is `RefreshResponse` of the request cookie at floor(nowMs / 1000); no cookie written |
| AuthRoutes.Routes.Logout | server/src/routes/auth.routes.ts:96-107 | always 200 "Logged out" and adds exactly the clearing cookie |
| App.CorsOrigin | server/src/app.ts:45 | the origin is echoed exactly when it equals FRONTEND_URL, otherwise null |
| App.Application.Use | server/src/app.ts:22 | mounts one middleware at the end of the list |
| App.Build | server/src/app.ts:22-65 | the list built at start-up is `Mounts(NODE_ENV)` |
| App.Limiters | server/src/app.ts:52-65 | the filtered list holds only rate limiters from the list |
| App.LimitsPerEnvironment | server/src/app.ts:52-65 | the limiters mounted are (100, 900) and auth (5, 900) in production, (1000, 60) and auth (50, 60) in development, none otherwise |
| App.MountOrder | server/src/app.ts:22-49 | security headers and request id first; the logger exactly outside NODE_ENV test; the body logger exactly in development; CORS before every limiter |
| App.CoveringLimits | server/src/app.ts:54-60 | never more limits than mounts; the limits of every covering rate limiter are among them |
| App.CoveringLimitsSound | server/src/app.ts:54-60 | every covering limit is that of a rate limiter in the list that covers the path |
| App.CoveringLimitsAppend | server/src/app.ts:22-65 | the limits keep mount order: those of a joined list are those of its parts in turn |
| App.CoveringLimitsPerEnvironment | server/src/app.ts:52-65 | production: (100, 900) then (5, 900) on auth paths, (100, 900) alone elsewhere; development: (1000, 60) then (50, 60) on auth paths, (1000, 60) alone elsewhere; none in any other environment |
| App.ProductionAuthLimits | server/src/app.ts:54-55 | in production an auth path passes the global limiter, then the auth limiter |
| App.RunLimiters | server/src/app.ts:54-55 | the limiters change no counter but the request's key; with no limiter the request is reached with its headers; headers set earlier are never dropped |
| App.AuthRequestCountsTwice | server/src/app.ts:54-55 | both limiters count one auth request under the same key, so the auth limiter sees the count raised by two |
| App.ThirdAuthRequestRejected | server/src/app.ts:54-55 | in one production window the first two requests to an auth path pass and the third is rejected, the counter at 6 |
| App.OnError | server/src/app.ts:85-112 | an HTTP exception answers its own status and message; any other error 500 "Internal server error"; both carry the request id and success false |
| App.OnErrorHidesInternalMessages | server/src/app.ts:99-111 | the message of an unexpected error never reaches the response |
| App.Me | server/src/app.ts:77-83 | userId is the payload's sub, message "Authorized access" |
| App.MeResponse | server/src/app.ts:77-83 | an answer exactly when the bearer token verifies under JWT_SECRET, with its sub; otherwise 401, success false, with the request id |
| App.MeAcceptsAccessTokens | server/src/app.ts:77-83 | `/api/me` answers exactly for live tokens signed with JWT_SECRET, with their sub; others get 401 carrying the request id |
| Env.NumberSettingUnset | server/src/config/env.ts:23-30 | an unset PORT / DB_POOL_SIZE takes its default |
| Env.ToNumber | server/src/config/env.ts:23-24 | an unset variable is NaN; a finite result lies strictly between -2^1024 and 2^1024; an unsigned digit text is a number, never negative |
| Env.NumberSetting | server/src/config/env.ts:28-30 | a value other than the default comes from a set variable and is finite |
| Env.Port | server/src/config/env.ts:23-28 | unset PORT gives 3000; any other port is the finite number PORT holds |
| Env.DbPoolSize | server/src/config/env.ts:24-30 | unset DB_POOL_SIZE gives 10; any other size is the finite number it holds |
| Env.RoundToBitsNearest | server/src/config/env.ts:23-24 | below 2^p a value is kept; above, the result has a p-bit significand (or 2^p after rounding up), lies within half a unit of the last place, goes to the even significand on a tie, and is not below the top power of two of the value |
| Env.RoundToDoubleNearest | server/src/config/env.ts:23-24 | the same at the 53 bits of a double: below 2^53 integers are exact |
| Env.RoundsPastLastExact | server/src/config/env.ts:23-24 | 2^p + 1 rounds to 2^p at p bits (a tie, to even) |
| Env.DecimalNumber | server/src/config/env.ts:23-24 | a decimal value is never NaN; a finite one lies strictly between -2^1024 and 2^1024 and is negative only for a minus sign |
| Env.NumberSettingDecimal | server/src/config/env.ts:23-30 | a variable holding the decimal text of n yields n rounded to a double, or the default when that reaches 2^1024 |
| Env.NumberSettingSafeInteger | server/src/config/env.ts:23-30 | below 2^53 the decimal text of n yields exactly n |
| Env.NumberSettingRoundsAbove2To53 | server/src/config/env.ts:23-30 | the text of 2^53 + 1 yields 2^53 |
| Env.NumberSettingOverflow | server/src/config/env.ts:23-30 | the text of a value of 2^1024 or more reads as Infinity, so the default applies |
| Env.NumberSettingInfinity | server/src/config/env.ts:23-30 | "Infinity", "+Infinity" and "-Infinity" fall back to the default: PORT 3000, DB_POOL_SIZE 10 |
| Env.NumberSettingEmpty | server/src/config/env.ts:23-30 | an empty numeric variable reads as 0, not its default |
| Env.NumberSettingNotANumber | server/src/config/env.ts:23-30 | a value whose trimmed text holds any character other than a digit, a sign, '.' or an ASCII letter falls back to the default |
| Env.RequireEnv | server/src/config/env.ts:15-21 | succeeds exactly when the chosen value (variable, or default if the variable is unset or empty) exists and is not blank; returns it untrimmed; otherwise the missing-variable error |
| Env.RequireEnvKeepsValue | server/src/config/env.ts:16-20 | a non-blank variable is returned unchanged and the default plays no part |
| Env.RequireEnvEmptyFallsBack | server/src/config/env.ts:16 | an empty variable behaves as an unset one |
| Env.RequireEnvBlankThrows | server/src/config/env.ts:16-18 | a whitespace-only variable throws even when a default exists |
| Env.RequireEnvUnsetThrows | server/src/config/env.ts:15-19 | an unset variable with no default throws "Missing required environment variable: KEY" |
| Env.RequireEnvNoDefault | server/src/config/env.ts:29-34 | without a default, success exactly for a present, non-blank variable, returning it |
| Env.FirstMissingIsFirst | server/src/config/env.ts:29-34 | the variable reported is the first missing one in evaluation order; none exactly when all five are present |
| Env.LoadConfig | server/src/config/env.ts:26-35 | the `env` object loads exactly when all five required variables are present, otherwise fails naming the first missing; on success each holds its variable's value |
| Env.NodeEnvDefault | server/src/config/env.ts:27 | NODE_ENV unset or empty gives "development" |
| RedisCache.ReconnectDelay | server/src/cache/redis.ts:17-21 | the delay is retries × 100 up to 30 retries and 3000 after; never above 3000 |
| RedisCache.ReconnectDelayMonotone | server/src/cache/redis.ts:20 | the delay never decreases with retries |
| RedisCache.CachedValue | server/src/cache/redis.ts:59-70 | a value is returned exactly when the key is live, its text non-empty and parseable, and it is that text |
| RedisCache.AfterSet | server/src/cache/redis.ts:72-83 | a truthy TTL stores with deadline now + TTL (a negative one changes nothing); no or zero TTL stores without deadline |
| RedisCache.SetThenGet | server/src/cache/redis.ts:59-83 | a stored non-empty parseable value reads back until its deadline |
| RedisCache.SetExpires | server/src/cache/redis.ts:75-76 | a value stored with a positive TTL is gone from its deadline on |
| RedisCache.ZeroTtlNeverExpires | server/src/cache/redis.ts:75-78 | TTL 0 is treated as no TTL |
| RedisCache.EmptyValueReadsNull | server/src/cache/redis.ts:62 | an empty stored text reads as null |
| RedisCache.Connected | server/src/cache/redis.ts:42-46 | after `connectRedis` the client is open, and a `connect` was issued only if it was closed |
| RedisCache.Disconnected | server/src/cache/redis.ts:48-53 | after `disconnectRedis` the client is closed, and `quit` was issued only if it was open |
| RedisCache.ConnectionIdempotent | server/src/cache/redis.ts:42-53 | repeating either call changes nothing |
| RedisCache.Client.ConnectRedis | server/src/cache/redis.ts:42-46 | connects only when closed; a failed connect rejects and leaves the client closed |
| RedisCache.Client.DisconnectRedis | server/src/cache/redis.ts:48-53 | the state becomes `Disconnected` of the old one |
| RedisCache.Client.Get | server/src/cache/redis.ts:59-70 | null on any failure or a closed client, otherwise `CachedValue`; never throws |
| RedisCache.Client.Set | server/src/cache/redis.ts:72-83 | applies `AfterSet` when the command runs, nothing otherwise; never throws |
| RedisCache.Client.Del | server/src/cache/redis.ts:85-91 | removes the key when the command runs; never throws |
| RedisCache.Client.Exists | server/src/cache/redis.ts:93-101 | true exactly when the command runs and the key is live; false on error |
| Database.Query | server/src/database/index.ts:26-49 | the pool's result or error is returned unchanged; a slow-query warning exactly when a success took over 1000 ms; an error log on failure |
| Database.TransactionTrace | server/src/database/index.ts:52-68 | no event when connecting fails; otherwise connect, BEGIN first and release last; ROLLBACK exactly when BEGIN, the callback or COMMIT failed |
| Database.TransactionResult | server/src/database/index.ts:52-68 | success exactly when connected and nothing failed, with the callback's value |
| Database.CommitPath | server/src/database/index.ts:55-61 | with no failure the trace is connect, BEGIN, callback, COMMIT, release and the callback's value is returned |
| Database.RollbackPath | server/src/database/index.ts:62-64 | a failing BEGIN, callback or COMMIT issues ROLLBACK and rethrows that error, or ROLLBACK's own error if it fails too |
| Database.CommitExcludesRollback | server/src/database/index.ts:58-64 | no COMMIT after a failed callback; COMMIT and ROLLBACK together only when COMMIT failed |
| Database.ReleasedOnce | server/src/database/index.ts:55-67 | an acquired client is released exactly once, last; a failed connect releases nothing |
| Database.Pool.WithTransaction | server/src/database/index.ts:52-68 | the events appended are `TransactionTrace` and the result `TransactionResult` |
| ApiClient.GetItem | client/src/lib/api.ts:11 | `localStorage.getItem`: the stored value, or null when absent |
| ApiClient.Bearer | client/src/lib/api.ts:14 | the credential is "Bearer ", then the token unchanged |
| ApiClient.WithCredentials | client/src/lib/api.ts:10-18 | with a non-empty stored token, Authorization becomes "Bearer " + token and other headers are kept; otherwise the headers are unchanged |
| ApiClient.OnRejected | client/src/lib/api.ts:20-53 | the retry mark is set exactly when it was set or the status is 401; the call settles as the resend or with the original error; no storage key but the token changes; the browser only ever moves to "/login" |
| ApiClient.RefreshOnlyOnFirst401 | client/src/lib/api.ts:25-29 | a refresh is attempted exactly on a 401 for a request not yet retried; the calls are none, a refresh, or a refresh and one resend |
| ApiClient.AtMostOneRecovery | client/src/lib/api.ts:25-44 | after one recovery attempt the request is marked, and any further rejection of it makes no call and changes nothing |
| ApiClient.RefreshSuccess | client/src/lib/api.ts:38-44 | a refresh stores the new token, puts "Bearer " + token in the request header, and the call settles as the resend |
| ApiClient.RefreshFailure | client/src/lib/api.ts:45-51 | a failed refresh removes only the token, sends the browser to "/login", and rejects with the original error |
| ApiClient.OtherErrorsPassThrough | client/src/lib/api.ts:25-28 | non-401 errors and errors of retried requests are rejected unchanged and touch nothing |
| ApiClient.FailedLoginTriggersRefresh | client/src/lib/api.ts:25-51 | a 401 from log-in itself triggers a refresh and, without a cookie, removes the token and navigates to "/login" |
| ApiClient.Api.OnRequest | client/src/lib/api.ts:10-18 | the request interceptor sets the headers to `WithCredentials` of the stored token |
| ApiClient.Api.OnResponseError | client/src/lib/api.ts:20-53 | the response interceptor's new storage, location, headers, mark, result and calls are those of `OnRejected` |
| AuthProvider.AfterLogin | client/src/context/AuthProvider.tsx:13-20 | after a successful log-in the token is stored and `user` is the reply's user; a rejection changes nothing |
| AuthProvider.AfterLogout | client/src/context/AuthProvider.tsx:22-26 | after a successful log-out `user` is null and only the token is removed; a rejection changes nothing |
| AuthProvider.AfterInit | client/src/context/AuthProvider.tsx:28-41 | loading is over after `initAuth` |
| AuthProvider.InitAuthOutcomes | client/src/context/AuthProvider.tsx:28-41 | no stored token: only loading changes; `/me` succeeds: user is its data, storage kept; `/me` fails: user null and the token removed |
| AuthProvider.RestoredUserLacksProfile | client/src/context/AuthProvider.tsx:34 | a restored session's user has no username or email, while a logged-in one has both |
| AuthProvider.LoginThenLogout | client/src/context/AuthProvider.tsx:13-26 | logging in and out successfully ends with no user and no token |
| AuthProvider.Provider.Signup | client/src/context/AuthProvider.tsx:9-11 | sign-up changes no state; it resolves with no value when the reply does, and rejects with the reply's error |
| AuthProvider.Provider.Login | client/src/context/AuthProvider.tsx:13-20 | the state becomes `AfterLogin` of the reply |
| AuthProvider.Provider.Logout | client/src/context/AuthProvider.tsx:22-26 | the state becomes `AfterLogout` of the reply |
| AuthProvider.Provider.InitAuth | client/src/context/AuthProvider.tsx:28-49 | the state becomes `AfterInit` of the `/me` outcome, and the children render in place of the loading screen afterwards |

## Left out

- Input validation: the signup and login zod schemas live in `server/src/validations/auth.schema.ts`, which is not part of this model. Handlers take inputs as already validated, and the 400 path of the validator is not modelled.
- argon2 and HMAC-SHA256 are symbolic. `Argon2.hashOf` and `Argon2.check` are parameters, and a token is its claims tagged with its secret. Timing cannot be stated; the number of argon2 calls stands in for it.
- Failures of the two look-ups in `signup` and `login` (`findFirst` rejecting) are not modelled. Only the insert and argon2 verification can fail. A failing `argon2.hash` is not modelled either.
- `Jwt.Verify` checks in the order algorithm, expiry, signature, and has no `nbf`/`iat` checks. The order of hono's own checks is outside this repository. Only the accept/reject verdict is relied on.
- Env.ToNumber: recognises only an optionally signed decimal integer, the blank string and the spelled-out infinities. Fractional, exponent, hexadecimal, octal and binary forms, which `Number` also accepts, are read as not-a-number, so they fall back to the default.
  - Decimal integers are rounded exactly to the nearest double (53 significant bits, ties to even), and a result of 2^1024 or more is Infinity. ECMAScript lets an implementation round digits past the 20th first; that variant is not modelled.
  - `-0` is read as the integer 0.
- `NODE_ENV` is not checked against the three declared values, as in the code. Logging output (`console.*`), the `/health` route, `secureHeaders`, the CORS options other than `origin`, and the request-id generation are left out.
- `App.MeResponse`: the message of the JWT middleware's 401 exception is a parameter. That middleware is configured in `server/src/middleware/auth.middleware.ts` and implemented in hono, whose text is not available.
- App.Covers: treats `/api/auth/*` as covering `/api/auth` and every path below it. Hono's exact matching rules are not modelled.
- Database.Query: timing is the `durationMs` parameter; the pool's own behaviour (SSL, timeouts, pool size), `checkDatabaseConnection` and `closePool` are process plumbing and are left out.
- RedisCache: JSON encoding is opaque. Values are the JSON texts, `parses` says which text `JSON.parse` accepts, and a failing `JSON.stringify` is not modelled.
  - A command on a closed client is treated as failing.
  - The reconnect loop itself is not modelled; only its delay is.
  - The error-event logging is left out.
- RateLimiter.Limiter.Handle: the downstream chain behind `next` is taken not to raise. In the code, an exception thrown out of `await next()` (`server/src/middleware/rateLimiter.ts:42`) lands in the same `catch` and calls `next` a second time; that path is not modelled.
- Concurrency: the sign-up race between pre-check and insert appears only as an injected `fault` on the insert. Interleavings of requests on the rate-limit store are not modelled; each request runs to completion.
- ApiClient: the retried request's outcome (`resent`) and the refresh outcome are parameters. A refresh reply without `accessToken` is not modelled.
- AuthProvider: React's rendering and effect scheduling are reduced to the `loading` flag, and the `AuthContext` value to the provider's fields.
  - A reply reaches the provider only after the API client's interceptors ran on it. A 401 on log-in itself may therefore already have refreshed or removed the token and moved the browser to "/login" (`ApiClient.FailedLoginTriggersRefresh`); the provider's state is the state those interceptors left.
