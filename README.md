# Session and authentication contract of a credit-card account web app

This project models the authentication core of a credit-card account management application, a REST backend with a React single-page client. It covers three parts of that core.

- **The backend `/auth` router** (`AuthRouter`). This is registration, login, and the two password-reset endpoints, over a user table keyed by unique email. bcrypt and `jsonwebtoken` are abstract functions in a `Crypto` value. The one fact the routes rely on is `Sound`: a password verifies against every hash of itself. A token carries the claims `userId`, `iat` and `exp = iat + 3600` (`Jwt.IssueClaims`).
- **The client session store** (`AuthContext`). This is the state of `AuthProvider`: `user`, `token`, the `localStorage` entries `user` and `accessToken`, and the shared `Authorization` default header. It has three transitions: the mount-time rehydration, `login` and `logout`. Pure step functions on a `Session` value specify them. The class `AuthContext.AuthProvider` performs them in place and is proved to follow them. `parseJwt` takes the middle segment of the token as in the JWS compact serialization (section 7.1 of RFC 7515). It does this with a verified model of `split('.')` (`Jwt.Split`). Base64 and JSON decoding are an abstract `Codec`.
- **The route gate** (`App`). This is `AppRoutes` and `RequireAuth`, as a resolution from a path and the session's `user` to a page or a redirect.

`EndToEnd` joins the backend and the client. A user who registers and then logs in ends with a client session that holds the issued token and the registered id.

Inputs the code takes from outside are parameters:
- the clock (`now`, in seconds);
- bcrypt's random salt (`salt`);
- failures of the database or of hashing (`storeFails`);
- the server's reply to the client's POST (`reply`, `None` when axios rejects);
- the browser's decoders (`Codec`);
- the storage and headers present at first render.

Behaviour of the code worth noting:
- Registration does not reject an empty password; the handler hashes whatever it gets.
- Rehydration requires both stored entries to be non-empty strings (JavaScript truthiness), not merely present.
- `/reset-password` on an unknown email is not a handled failure. `prisma.user.update` throws and nothing catches it, so the model requires the email to exist.

## Model

| member | source | states |
|---|---|---|
| `Jwt.Split` | src/contexts/AuthContext.tsx:18 | `split('.')` yields at least one piece, no piece holds a dot, joining the pieces gives back the input, and there is exactly one piece iff the input has no dot |
| `Jwt.MiddleSegment` | src/contexts/AuthContext.tsx:18 | `t.split('.')[1]` is defined iff the token contains a dot, and it never contains a dot |
| `Jwt.CompactPayload` | src/contexts/AuthContext.tsx:18 | in `header.payload.signature` the second segment is exactly the payload |
| `Jwt.IssueClaims` | backend/src/routes/auth.ts:30 | the signed claims carry the user's id, are issued at `now` and expire one hour later |
| `AuthRouter.RegisterResult` | backend/src/routes/auth.ts:10-21 | succeeds iff the email is new and nothing else fails. On success: responds with only the new id and the email, stores `hash(password, salt)` (not the password) under that email, and keeps the table keyed and ids unique. Otherwise: exactly `400 {error: 'Registration failed'}` and the table unchanged |
| `AuthRouter.LoginResult` | backend/src/routes/auth.ts:24-32 | 200 iff the email exists and the password verifies against its stored hash; then the body is the token signed over that user's id, issued now and expiring in an hour; every failure is exactly `401 {error: 'Invalid credentials'}` |
| `AuthRouter.ResetRequested` | backend/src/routes/auth.ts:35-39 | always 200 with a message that ends with the email given |
| `AuthRouter.ResetResult` | backend/src/routes/auth.ts:42-47 | replaces only the named user's hash by `hash(newPassword, salt)`; every other row, the key set and the id counter are unchanged; responds `Password updated` |
| `AuthRouter.UniformLoginFailure` | backend/src/routes/auth.ts:26-29 | an unknown email and a wrong password for a known email get the same response |
| `AuthRouter.RegisterThenLogin` | backend/src/routes/auth.ts:13-31 | after registering, login with the same email and password returns the token for the new id, given `Sound` |
| `AuthRouter.ResetThenLogin` | backend/src/routes/auth.ts:42-46 | after a reset, the new password logs that user in, and login for every other email, with any password, answers as before |
| `AuthRouter.Router.Register` | backend/src/routes/auth.ts:10-21 | the handler's response and new table are those of `RegisterResult`, and the table stays keyed |
| `AuthRouter.Router.Login` | backend/src/routes/auth.ts:24-32 | the handler answers as `LoginResult` and changes no row (it has nothing to modify) |
| `AuthRouter.Router.RequestPasswordReset` | backend/src/routes/auth.ts:35-39 | answers as `ResetRequested` and changes nothing |
| `AuthRouter.Router.ResetPassword` | backend/src/routes/auth.ts:42-47 | the handler's response and new table are those of `ResetResult` |
| `AuthContext.ParseJwt` | src/contexts/AuthContext.tsx:17-19 | total: a token without a dot gives `{}`; a middle segment that decodes gives its decoded value; any result other than `{}` is the decoding of the middle segment |
| `AuthContext.Fields` | src/contexts/AuthContext.tsx:48 | property lookups on an object payload see its fields; on `null` or a non-object value they see none (`LoginStep` relies on the `null` case, see Findings) |
| `AuthContext.DerivedUser` | src/contexts/AuthContext.tsx:48 | `id` is `payload.userId`, else `payload.sub`; `email` is `payload.email`, else the email argument |
| `AuthContext.ChosenToken` | src/contexts/AuthContext.tsx:38 | picks `accessToken` when it is not null or undefined, else `token` |
| `AuthContext.Initial` | src/contexts/AuthContext.tsx:22-23 | the first-render session is signed out, and coherent when no `Authorization` header is set |
| `AuthContext.MountStep` | src/contexts/AuthContext.tsx:26-34 | throws exactly when both stored entries are non-empty and the stored user does not parse. It changes nothing unless both stored entries are non-empty and the user parses. Then it sets `token` to the stored token, `user` to the parsed user, and the header to `Bearer <token>`. Storage is never written |
| `AuthContext.LoginStep` | src/contexts/AuthContext.tsx:36-51 | throws iff the request failed or the chosen token is missing or empty, and then changes nothing. Otherwise storage `accessToken`, the header `Bearer <token>` and `token` all hold the chosen token. `user` is the derived user, and the same user is written to storage `user`. No other key changes |
| `AuthContext.LoginStepAsWritten` | src/contexts/AuthContext.tsx:42-49 | agrees with `LoginStep` except when the payload decodes to `null`. Then it throws, and the new session is the old one with only the stored `accessToken`, the header `Bearer <token>` and `token` set; `user` and the stored user stay as they were |
| `AuthContext.LogoutStep` | src/contexts/AuthContext.tsx:58-64 | `user` and `token` are null, both storage keys and the header are removed, and every other key keeps its value |
| `AuthContext.Session.IsAuthenticated` | src/contexts/AuthContext.tsx:67 | `!!token`: true exactly when the token is present and non-empty |
| `AuthContext.Apply` | src/contexts/AuthContext.tsx:26-64 | one event of mount, login, logout or register; register leaves the session unchanged; every storage entry other than `user` and `accessToken`, and every header other than `Authorization`, is untouched |
| `AuthContext.Run` | src/contexts/AuthContext.tsx:26-64 | any sequence of events leaves every storage entry other than `user` and `accessToken`, and every header other than `Authorization`, untouched |
| `AuthContext.ApplyKeepsCoherent` | src/contexts/AuthContext.tsx:26-64 | mount, login, logout and register each preserve: `user`/`token` null together, token non-empty, and the header set to `Bearer <token>` exactly when there is a token |
| `AuthContext.RunKeepsCoherent` | src/contexts/AuthContext.tsx:26-64 | any sequence of those transitions preserves coherence |
| `AuthContext.Reachable` | src/contexts/AuthContext.tsx:22-67 | in every state reached from first render: `isAuthenticated` iff a token iff a user; the token is never `""`; the header carries the token |
| `AuthContext.EmptyAccessTokenNotSkipped` | src/contexts/AuthContext.tsx:38-39 | an empty `accessToken` is not replaced by `token`: login throws `No token from server` and changes nothing |
| `AuthContext.LoginThenReload` | src/contexts/AuthContext.tsx:26-50 | after a successful login, a fresh page load rehydrates the same token and user and sets the header to the same value |
| `AuthContext.LogoutThenReload` | src/contexts/AuthContext.tsx:26-64 | after logout, a fresh page load stays signed out and changes nothing |
| `AuthContext.LogoutIdempotent` | src/contexts/AuthContext.tsx:58-64 | logging out twice equals logging out once |
| `AuthContext.NullPayloadSplitsSession` | src/contexts/AuthContext.tsx:42-49 | as written, login with token `h.bnVsbA==.s` from a signed-out state sets a token with no user, which breaks coherence |
| `AuthContext.AuthProvider.constructor` | src/contexts/AuthContext.tsx:21-23 | the provider starts with the first-render session |
| `AuthContext.AuthProvider.Mount` | src/contexts/AuthContext.tsx:26-34 | the effect's outcome and new state are those of `MountStep` |
| `AuthContext.AuthProvider.Login` | src/contexts/AuthContext.tsx:36-51 | the outcome and new state are those of `LoginStep` |
| `AuthContext.AuthProvider.Register` | src/contexts/AuthContext.tsx:53-56 | throws iff the request is rejected, and modifies no session state |
| `AuthContext.AuthProvider.Logout` | src/contexts/AuthContext.tsx:58-64 | the new state is `LogoutStep` of the old one |
| `App.RequireAuth` | src/App.tsx:23-27 | without a user it redirects to `/login`; with a user it yields its children unchanged |
| `App.Guarded` | src/App.tsx:44-52 | renders exactly the six protected pages, each at its own path; every other path, `/` included, redirects to `/dashboard` |
| `App.Resolve` | src/App.tsx:29-61 | a public path renders its own page; every redirect goes to `/login` or `/dashboard`; a redirect to `/login` happens only without a user |
| `App.PublicRoutes` | src/App.tsx:33-35 | `/login`, `/register` and `/apply` render their page whatever the session |
| `App.GuardRedirectsWithoutUser` | src/App.tsx:23-27 | every non-public path redirects to `/login` exactly when `user` is null |
| `App.SignedInRoutes` | src/App.tsx:45-52 | with a user: `/` redirects to `/dashboard`, the six pages render, and any other path redirects to `/dashboard` |
| `App.NoRedirectLoop` | src/App.tsx:25-52 | every redirect target resolves to a page |
| `App.GuardAgreesWithIsAuthenticated` | src/App.tsx:24-25 | in a coherent session the guard redirects a protected path iff `isAuthenticated` is false |
| `App.RehydrationRace` | src/App.tsx:23-27 | on first render a protected path redirects to `/login` even when storage holds a session that mount restores |
| `EndToEnd.Reply` | src/contexts/AuthContext.tsx:37 | the client sees a body only for a 200 carrying a token, and then reads it as `data.token` with no `accessToken` |
| `EndToEnd.RegisterThenSignIn` | src/contexts/AuthContext.tsx:37-50 | register, then server login, then client login: the client keeps the issued token, with user id equal to the registered id and email equal to the one typed |
| `EndToEnd.RejectedLoginKeepsSession` | src/contexts/AuthContext.tsx:37 | a 401 from the server makes client login throw and leaves the session unchanged |

## Left out

- Crypto: bcrypt's salting and cost factor, and JWT signing with the `'secret'` fallback key. These are the abstract `Crypto` functions. Token verification and expiry checks on later requests are not part of this model.
- Decoding: `atob` and `JSON.parse` are the abstract `Codec`. `atob` reads standard base64 while JWS payloads are base64url, so a payload whose encoding contains `-` or `_` decodes to `{}`. `EndToEnd.Interoperable` assumes this does not happen.
- `AuthContext.MountStep`: a stored user entry is modelled as text that parses to a user or fails to parse. A hand-edited entry that parses to `null` or to a non-object is not modelled. Neither is `JSON.stringify` dropping an undefined `id`; that is inside the abstract codec.
- `AuthContext.AuthProvider.Login`: follows the corrected `LoginStep`, not src/contexts/AuthContext.tsx:42-49 as written. A payload that decodes to `null` is read as `{}` (see Findings). It takes the server's reply instead of the password, which it only forwards in the POST. Token values that are not strings are not modelled.
- `AuthContext.Reachable`: the invariant rests on the stored user entry parsing to a user or failing to parse. In the code, a stored `user` of `null`, `0` or `false` beside a non-empty `accessToken` makes mount set a falsy user and a token. Then `isAuthenticated` is true while `RequireAuth` redirects. The model does not represent such an entry (see `AuthContext.MountStep` above), so it does not capture this case.
- `AuthRouter.Router.Login`: a database failure during login (an unhandled rejection in Express) is not modelled.
- `AuthRouter.RegisterResult`: request bodies with missing or non-string fields are not modelled. Every failure the handler's `catch` absorbs other than a duplicate email is the single flag `storeFails`.
- `AuthRouter.ResetResult`: requires the email to exist, because the handler does not catch the error `prisma.user.update` throws for an unknown email.
- React timing (render and effect order, state batching) is not modelled, beyond the first-render race in `App.RehydrationRace`. Neither are concurrent `login`/`logout` interleavings.
- HTTP transport is not modelled: the default header is one entry of a map, and `localStorage` is a map.
- Route matching is exact string equality. Case-insensitive matching and trailing slashes are not modelled.
- The form pages (`src/pages/Login.tsx`, `src/pages/Register.tsx`) are view code. The Express wiring in `backend/src/index.ts` is I/O.

## Findings

| source | as written | input that shows it | evidently intended | confidence | as-written member | corrected member |
|---|---|---|---|---|---|---|
| src/contexts/AuthContext.tsx:42-49 | `parseJwt` returns whatever `JSON.parse` yields. `null` is not caught, so `payload.userId` throws after `accessToken`, the header and `token` are already set. `user` and the stored user keep their old values | a login reply with token `h.bnVsbA==.s`, whose middle segment decodes to `null`, from a signed-out state | a payload that is not an object counts as `{}`, like one that fails to decode, so `user` and `token` are always set together | medium, not executed | `AuthContext.LoginStepAsWritten`, `AuthContext.NullPayloadSplitsSession` | `AuthContext.LoginStep`, `AuthContext.ApplyKeepsCoherent` |

