# goaat authentication core in Dafny

A Dafny model of the sequential logic under the goaat admin web application: the
log-level colouring writer, the typed session kept in the session cookie, the two
authentication middlewares, the request-log status colour, configuration loading,
OAuth start-up validation, and the OAuth start, callback and logout handlers.

Modules follow the Go packages:

- `Configuration` (`config.dfy`): `Load` over an environment map.
- `Logger` (`logger.dfy`): `replaceLevel` as a scanning method proved against the
  specification function `ReplaceFirst`, and `ColorWriter.Write` as four successive
  replacements, stated as the fold `Colorize` over the table `LevelStyles`.
- `Auth` (`auth.dfy`): `UserSession`, `GetSession`, `SaveSession`, `ClearSession`,
  `SetReturnTo`, `GetUserFromContext` and `Init`. The request-scoped framework
  objects these work on are classes here. `Session` is the request's cookie session:
  its key/value map, its options and the cookies written so far. `Context` is the
  request context: the request-context values, the route parameters, the URL, the
  headers, and a trace of the calls made to code outside the model.
- `Middleware` (`middleware.dfy`): `RequireAuth`, `InjectUser`, and the colour
  choice of the request log line.
- `Handlers` (`handlers.dfy`): `Auth`, `AuthCallback` and `Logout`.
- `External` (`external.dfy`), `Ansi` (`ansi.dfy`) and `Wrappers` (`wrappers.dfy`)
  hold shared types and constants. `External` covers the HTTP status codes, the
  response kinds, the goth and database records, and the call-trace entries.
  `Ansi` holds the escape codes and `Wrappers` holds Option and Result.

The OAuth exchange, the database upsert, the next handler and the cookie store's
ability to encode a session are oracles: their outcomes are method parameters. Calls
to the OAuth provider, the database and the next handler are appended to
`Context.calls`; cookies the store writes are appended to `Session.saved`.

The model follows the code as written. The OAuth callback stores the user under the
loose keys `user_id`, `email`, `name` and `avatar_url`, and pops a loose `return_to`
key. `GetSession`, `SetReturnTo` and `RequireAuth` only use the typed record under
`user_session`. So the contract of `AuthCallback` states that `GetSession` returns the
same record before and after the callback. A successful callback therefore does not
by itself satisfy `RequireAuth`, and the callback does not read the URL that
`SetReturnTo` stores. `Init` returns an error when the session secret is empty;
`main` ignores that error outside production (cmd/server/main.go:29-34). An upsert
failure is always a 500.

## Model

| member | source | states |
|---|---|---|
| `External.GetOrEmpty` | internal/config/config.go:18 | an unset variable (likewise a missing route parameter or header) reads as the empty string, a set one as its value |
| `Configuration.Load` | internal/config/config.go:17-37 | Port is "8080" when PORT is empty or unset and PORT otherwise; Environment is "production" when ENV is empty or unset and ENV otherwise; the database URL, client id, client secret and session secret are the variables verbatim; LoginRedirectURL is always "/admin" |
| `Configuration.LoadReadsOnlyItsVariables` | internal/config/config.go:17-37 | two environments that agree on the six variables load the same configuration |
| `Configuration.EmptyIsUnset` | internal/config/config.go:18-34 | setting a variable to "" loads the same configuration as leaving it unset |
| `Logger.FirstOccurrence` | internal/platform/logger/logger.go:61-65 | the result is the least index at or after `from` where the pattern occurs, or none when it occurs nowhere from there on |
| `Logger.ReplaceLevel` | internal/platform/logger/logger.go:56-67 | the left-to-right scan with early return computes exactly the first-occurrence replacement `ReplaceFirst` |
| `Logger.ReplaceWithoutMatch` | internal/platform/logger/logger.go:61-66 | when " LEVEL " occurs nowhere, the string is returned unchanged |
| `Logger.ShortStringUnchanged` | internal/platform/logger/logger.go:61-66 | a string shorter than " LEVEL " is returned unchanged |
| `Logger.ReplaceAtFirstMatch` | internal/platform/logger/logger.go:58-64 | with i the least index of an occurrence, the result is s[:i] + " colored " + s[i+len(pattern):] |
| `Logger.ReplacedPieces` | internal/platform/logger/logger.go:59-63 | after a match: the prefix before it is kept, the coloured token follows, the rest is copied verbatim, and the length is len(s) - len(level) + len(colored) |
| `Logger.LaterOccurrencesKept` | internal/platform/logger/logger.go:63 | only the first occurrence is replaced: every later occurrence, including one that shares the replaced token's trailing space, is still in the result, shifted by len(colored) - len(level) |
| `Logger.ReplaceLength` | internal/platform/logger/logger.go:59-66 | a replacement either returns the input or changes its length by len(colored) - len(level) |
| `Logger.ColorizeWithoutLevels` | internal/platform/logger/logger.go:47-50 | a line containing none of the level tokens passes through the replacements unchanged |
| `Logger.ColorizeLength` | internal/platform/logger/logger.go:47-50 | when each coloured form adds nine characters, the replacements add nine characters per level found, at most one per level |
| `Logger.LevelStylesAddNine` | internal/platform/logger/logger.go:40-50 | each coloured form colour + LEVEL + reset is nine characters longer than LEVEL |
| `Logger.WriteLength` | internal/platform/logger/logger.go:36-52 | the line Write passes on is its input plus 0, 9, 18, 27 or 36 characters |
| `Logger.ColorWriter.constructor` | internal/platform/logger/logger.go:31-33 | a new ColorWriter has written nothing |
| `Logger.ColorWriter.Write` | internal/platform/logger/logger.go:36-53 | the writer receives the input with the DEBUG, INFO, WARN and ERROR replacements applied in that order, each to the previous result, each coloured form being colour + LEVEL + reset |
| `Auth.AuthenticatedIffUserId` | internal/auth/session.go:35-38 | a session is authenticated iff UserID != 0; the zero UserSession is not |
| `Auth.GetUserFromContext` | internal/auth/session.go:40-46 | the UserSession stored under UserContextKey, or UserSession{} when there is none or it has another type |
| `Auth.GetSession` | internal/auth/session.go:48-59 | the UserSession stored under UserKey, or UserSession{} when there is none or it has another type; it never fails |
| `Auth.SaveSession` | internal/auth/session.go:61-74 | Values[UserKey] becomes s and other keys are untouched; Options become Path "/", MaxAge 604800, HttpOnly; a following GetSession returns s; the save error is passed on |
| `Auth.ClearSession` | internal/auth/session.go:76-81 | MaxAge becomes -1; the values and the typed session are unchanged |
| `Auth.SetReturnTo` | internal/auth/session.go:83-88 | the stored session is the previous GetSession result with only ReturnTo replaced by the URL, so authentication is unchanged |
| `Auth.Init` | internal/auth/auth.go:14-38 | empty client id or secret is the credentials error, which wins over the session-secret error; with credentials present, an empty session secret is the session-secret error; success exactly when all three are set, with the store secret, the credentials and the callback URL |
| `Auth.InitFailureMessage` | internal/auth/auth.go:14-21 | a failed Init's message is "SESSION_SECRET must be set" iff both credentials are set and the secret is empty, and "GITHUB_CLIENT_ID and GITHUB_CLIENT_SECRET must be set" iff a credential is empty |
| `Auth.ProductionCallbackIgnoresPort` | internal/auth/auth.go:27-31 | in production the callback URL is the fixed https://your-domain.com/auth/github/callback, whatever the port |
| `Auth.LocalCallbackCarriesPort` | internal/auth/auth.go:27 | outside production the callback URL is "http://localhost:" + Port + "/auth/github/callback" |
| `Auth.InitAfterLoad` | internal/auth/auth.go:14-21 | Init of the loaded configuration succeeds exactly when GITHUB_CLIENT_ID, GITHUB_CLIENT_SECRET and SESSION_SECRET are set and non-empty |
| `Auth.DefaultEnvironmentUsesProductionCallback` | internal/auth/auth.go:28-31 | with ENV unset, a successful Init uses the production callback URL |
| `Middleware.RequireAuth` | internal/middleware/auth.go:12-31 | an unauthenticated session gets a 307 to /login, next is not called, and the stored session has ReturnTo set to the request URL and is still unauthenticated; an authenticated one has the session read at the start injected under UserContextKey, next called exactly once, its response returned, and the session unchanged |
| `Middleware.InjectUser` | internal/middleware/inject_user.go:13-23 | for any session, the context user becomes GetSession's result, next is called exactly once, and its response is returned; the session is not in the frame |
| `Middleware.StatusColor` | internal/middleware/logger.go:20-25 | green iff status < 400, yellow iff 400 <= status <= 499, red iff status >= 500, so every status gets exactly one colour |
| `Middleware.StatusColorMonotone` | internal/middleware/logger.go:20-25 | a larger status never gets a milder colour |
| `Middleware.LogValues` | internal/middleware/logger.go:19-41 | the access line carries the cyan method colour and the status colour; a second, error line is emitted iff there is an error |
| `Handlers.Auth` | internal/web/handlers/auth.go:16-30 | an empty provider is a 400 with no OAuth call; otherwise the provider is put into the request context and BeginAuth is called once |
| `Handlers.UpsertParamsFor` | internal/web/handlers/auth.go:50-62 | the upsert carries the profile's id, email and name, and its avatar is valid iff the profile's AvatarURL is non-empty |
| `Handlers.LoggedIn` | internal/web/handlers/auth.go:74-79 | user_id, email and name hold the row's values; avatar_url is set from the row iff its avatar is valid; every other key is untouched |
| `Handlers.ReturnTarget` | internal/web/handlers/auth.go:85-88 | the redirect target is the return_to string when it is present and non-empty, else "/"; it is never empty |
| `Handlers.LoggedInKeepsOtherKeys` | internal/web/handlers/auth.go:74-88 | writing the row leaves return_to and the typed session under UserKey as they were |
| `Handlers.AuthCallback` | internal/web/handlers/auth.go:33-93 | 400 with no call when the provider is empty; 401 with the error text after CompleteAuth fails, before any upsert or session write; 500 "Failed to save user" after a failed upsert, with the session untouched; otherwise the session is written as StoreLogin states; GetSession is unchanged throughout |
| `Handlers.StoreLogin` | internal/web/handlers/auth.go:67-92 | Options become Path "/", MaxAge 604800, HttpOnly and the row is written; a failed save is 500 "Failed to save session"; otherwise a 307 to ReturnTarget, with return_to deleted and saved again when it was used |
| `Handlers.PopReturnTo` | internal/web/handlers/auth.go:84-90 | returns ReturnTarget of the session; deletes return_to and saves again exactly when it held a non-empty string |
| `Handlers.Logout` | internal/web/handlers/auth.go:96-115 | provider logout is called iff the provider is non-empty; MaxAge becomes -1 with the values unchanged; with the request header Hx-Request (canonical form of HX-Request) equal to "true" the answer is 200 with the response header Hx-Redirect "/", otherwise a 303 to "/" |

## Left out

- `Logger.ColorWriter.Write`: does not return the byte count or the error of `fmt.Fprint`. The writer is modelled as the text it has received.
- `NewColorful` (internal/platform/logger/logger.go:13-23) only configures the logging library. It is not modelled.
- Go strings are byte sequences. The model uses sequences of characters. The search and splice of `replaceLevel` are the same over either element type.
- The request log line is modelled by its fields, not its `fmt.Printf` format. The latency field is left out because durations are not modelled.
- The `Warnf` and `Infof` log calls in `RequireAuth` are I/O and are left out.
- The session cookie's gob encoding, signing and `gob.Register` are left out. The result of `session.Get` is modelled as the decoded value map, which is empty when the cookie is missing or unreadable. Whether a save succeeds is a parameter.
- `Auth.GetSession`, `Auth.SaveSession`, `Auth.ClearSession`, `Auth.SetReturnTo`, `Handlers.StoreLogin`, `Handlers.Logout`: the model always has a session. The session middleware is installed only when SESSION_SECRET is set (cmd/server/main.go:47-51), and a failed `Init` is tolerated outside production (cmd/server/main.go:29-34). Without the middleware `session.Get` returns no session, its error is discarded, and each of these operations dereferences nil and panics, which the Recover middleware turns into a 500. That case is not modelled.
- `sessions.Options` is modelled by its Path, MaxAge and HttpOnly fields. In Go, `SaveSession` also resets the other fields, such as Domain, Secure and SameSite.
- Goth provider registration and the `gothic.Store` assignment in `Init` are global side effects. They are modelled as the `ProviderSetup` value that `Init` returns.
- `BeginAuth`, `CompleteAuth`, the provider `Logout` and `UpsertUser` are oracles. The model records each call and takes its result as a parameter. The provider `Logout` error is ignored, as in Go.
- The next handler is an oracle too. Its effect on the request is not modelled; only the call and its returned response are.
- The browser's handling of an expired cookie is not modelled. So "logout followed by a protected request redirects to /login" is not stated.
- Header-name canonicalisation is not computed. Request and response headers are kept under their canonical names, and the model uses those names (`Hx-Request`, `Hx-Redirect`).
- The database package is not part of this model. The row ID is taken to be an int64, and the email and name are taken to be plain strings.
- `handlers.New`, `routes.go` and the `Handler` struct do not fit together as shown. The handlers are modelled as methods that receive their oracles' results directly.
- The page handlers, health, /api/authors, `main.go`, services and the front-end scripts are not part of this model.
