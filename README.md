# Image Hub front-end: session and view-controller model

A Dafny model of the authentication core of the Image Hub single-page front-end:

- **Auth client** (`src/utils/auth.ts`): `register` (a local validation and a mock token),
  `login` (a network answer turned into a success or failure response, with the token's
  payload decoded into a user), `parseJwt`, `logout` and `getStoredAuth`.
- **Session store**: the browser's local storage, a class `Storage.LocalStorage` holding a
  `map<string, Value>`; the session lives under the keys `token` and `user`.
- **View controller** (`src/App.tsx`): the `App` component's four state hooks (`user`,
  `authMode`, `isLoading`, `error`), its five handlers (the mount effect, `handleLogin`,
  `handleRegister`, `handleLogout`, `switchAuthMode`) and the rule that picks the dashboard,
  the login form or the registration form.

Files and modules:

| file | module | models |
|---|---|---|
| `types.dfy` | `AuthTypes` | `User`, the credentials and `AuthResponse` of `src/types/auth.ts` |
| `storage.dfy` | `Storage` | local storage (`setItem`, `removeItem`) and JavaScript truthiness of a stored string |
| `auth.dfy` | `Auth` | `src/utils/auth.ts`: the storage-writing operations as methods, each specified by pure functions of its inputs and the old storage contents |
| `app.dfy` | `App` | `src/App.tsx`: the `Controller` class, the pure transitions its methods are specified by, the render rule |
| `lifetime.dfy` | `Lifetime` | a page's life: load, mount, then any sequence of user actions through the rendered controls; invariants proved by induction over the sequence |

Inputs of the model, standing for what the code obtains from outside: the network answer
(`Auth.Fetched`: a response's `ok` flag and body text, or a rejected `fetch`), the random
part of the mock registration token (`suffix`), and the base64 and JSON decoding of a token
payload (`decode: string -> Option<Claims>`, where `None` is any exception). The user's
identifier is a sum of a number and a string (`Id`), because the code assigns `'1'`,
`0` and a token's `sub`. Serialising a user to storage and parsing it back is modelled as
the identity: a stored entry is `Text(s)` or `Json(user)`.

Behaviours of the code the model keeps:

- `parseJwt` defaults `sub` to `0` and the names to `''`, but copies `email` with no default,
  so a decoded user's email may be undefined (`User.email` is an `Option`).
- The mount effect tests the stored token for truthiness, so an empty stored token does not
  restore a session.
- An ok login whose body is non-empty but does not decode stores the new token but keeps a
  user stored before, so the next page load shows that earlier user's dashboard. An ok login
  with an empty body stores the empty token, and the next page load shows the login form.

## Model

Definitions without a row of their own are described by the rows of the members that use
them: `Auth.IdTruthy` and `Auth.TextOr` (the `||` defaults of src/utils/auth.ts:76-79) by
`Auth.ParseJwt`, `Auth.CaughtMessage` (src/utils/auth.ts:66) by `Auth.LoginResponse`,
`App.Initial` (src/App.tsx:12-15) by `App.Controller.constructor`, and `Lifetime.Launch`
(src/App.tsx:12-23) by `Lifetime.LaunchEstablishesInvariant`.

| member | source | states |
|---|---|---|
| `Auth.Split` | src/utils/auth.ts:74 | `token.split('.')` yields at least one piece, no piece contains the separator, and there is exactly one piece iff the text has no separator |
| `Auth.JoinSplit` | src/utils/auth.ts:74 | joining the pieces with the separator gives back the original text |
| `Auth.SplitSeparatorFree` | src/utils/auth.ts:74 | a text without the separator splits into itself alone |
| `Auth.PayloadSegment` | src/utils/auth.ts:74 | `split('.')[1]` exists iff the token contains a dot, and it contains no dot |
| `Auth.PayloadOfDottedToken` | src/utils/auth.ts:74 | a token `header.payload` or `header.payload.rest` with dot-free header and payload has `payload` as segment 1 |
| `Auth.ParseJwt` | src/utils/auth.ts:72-84 | no user from a token without a dot; otherwise a user iff segment 1 decodes; then id is `sub`, or `0` when `sub` is falsy; first and last name are the claim, or `''` when falsy; email is the claim with no default |
| `Auth.LoginResponse` | src/utils/auth.ts:36-69 | success iff the answer is an ok response; then token is the body and user is `parseJwt` of it (possibly none); a non-ok answer fails with the body as message; a rejected fetch fails with the error's message or `'Login failed'` |
| `Auth.LoginItems` | src/utils/auth.ts:44-56 | only an ok answer writes storage: `token` becomes the body, `user` becomes the decoded user when there is one and is otherwise left as it was; no other key changes |
| `Auth.Login` | src/utils/auth.ts:36-69 | the returned response is `LoginResponse` and the new storage is `LoginItems` of the old |
| `Auth.LoginWithDecodedPayload` | src/utils/auth.ts:51-62 | an ok answer whose segment 1 decodes to claims `c` returns success with the token and the user built from `c` |
| `Auth.LoginWithSampleToken` | src/utils/auth.ts:51-62 | the answer `abc.eyJzdWIiOiI0MiIsImVtYWlsIjoiYUBiLmNvbSJ9.xyz` whose payload holds `sub` "42" and email "a@b.com" gives a user with id "42", that email and empty names |
| `Auth.Utf16Length` | src/utils/auth.ts:91 | `password.length`: the number of UTF-16 code units, between the number of characters and twice it; equal to it without characters outside the Basic Multilingual Plane, twice it with only such characters |
| `Auth.RegistrationValid` | src/utils/auth.ts:91 | refuses an empty email, first name or last name and a password shorter than 6 UTF-16 code units; accepts everything else |
| `Auth.AstralPasswordAccepted` | src/utils/auth.ts:91 | a password of three emoji (JavaScript length 6) passes the check |
| `Auth.RegisterResponse` | src/utils/auth.ts:91-113 | success iff email non-empty, password at least 6 UTF-16 code units, first and last name non-empty; then the token starts with `mock-jwt-token-` and the user has id `'1'` and the input's email and names; otherwise failure with the fixed validation message and nothing else |
| `Auth.RegisterItems` | src/utils/auth.ts:91-101 | on success `token` and `user` hold exactly the returned token and user; on failure storage is unchanged; no other key changes |
| `Auth.Register` | src/utils/auth.ts:86-114 | the returned response is `RegisterResponse` and the new storage is `RegisterItems` of the old |
| `Auth.RegisterRefusesEachViolation` | src/utils/auth.ts:110-113 | violating any one of the four conditions gives the validation failure and leaves storage unchanged |
| `Auth.LogoutItems` | src/utils/auth.ts:116-119 | neither `token` nor `user` remains; no other key changes |
| `Auth.Logout` | src/utils/auth.ts:116-119 | the new storage is `LogoutItems` of the old |
| `Auth.GetStoredAuth` | src/utils/auth.ts:121-127 | the token is present iff stored and is the stored entry; the user is present iff a serialised user is stored, and is that user |
| `Auth.LogoutThenLoad` | src/utils/auth.ts:116-127 | after logout, reading the session gives no token and no user |
| `Auth.RegisterThenLoad` | src/utils/auth.ts:100-107 | after a successful register, reading the session gives back the returned token and user |
| `Auth.LoginThenLoad` | src/utils/auth.ts:53-61 | after an ok login, reading the session gives the returned token; the returned user when there is one, else the user stored before |
| `Storage.Truthy` | src/App.tsx:20 | the `token &&` test: a serialised user is truthy, a stored text is truthy iff it is non-empty |
| `Storage.LocalStorage.SetItem` | src/utils/auth.ts:53-55 | `setItem` replaces the one entry under its key and leaves every other entry alone |
| `Storage.LocalStorage.RemoveItem` | src/utils/auth.ts:117-118 | `removeItem` drops the entry under its key, if any, and leaves every other entry alone |
| `App.MessageOr` | src/App.tsx:34 | JavaScript `or` of the message and the fallback: the message when present and non-empty, else the fallback |
| `App.Mounted` | src/App.tsx:17-23 | the user becomes the stored user exactly when a truthy token and a user are stored, and is otherwise unchanged; the other fields are unchanged |
| `App.BeginSubmit` | src/App.tsx:26-27 | a submission starts with loading on and no error; user and mode unchanged |
| `App.Settled` | src/App.tsx:29-40 | loading ends and mode is kept; a successful response with a user sets the user; any other response sets the error to its message or the fallback; a throw sets `'An unexpected error occurred'` |
| `App.LoggedOut` | src/App.tsx:61-65 | user and error are cleared; mode and loading unchanged |
| `App.Switched` | src/App.tsx:67-70 | the mode is set and the error cleared; user and loading unchanged |
| `App.Render` | src/App.tsx:73-111 | the dashboard iff there is a user, showing that user; otherwise the form of the current mode, given the loading flag and error |
| `App.PendingFormShowsLoading` | src/App.tsx:26-27 | while a submission is pending the form shows loading and no error |
| `App.LogoutShowsForm` | src/App.tsx:61-65 | after logout the form of the remembered mode is shown without error |
| `App.Controller.constructor` | src/App.tsx:12-15 | no user, login mode, not loading, no error |
| `App.Controller.Mount` | src/App.tsx:17-23 | the new state is `Mounted` of the old and of the stored session |
| `App.Controller.HandleLogin` | src/App.tsx:25-41 | the new state is `Settled(BeginSubmit(old), login's response, 'Login failed')`; storage is `LoginItems` of the old |
| `App.Controller.HandleRegister` | src/App.tsx:43-59 | the new state is `Settled(BeginSubmit(old), register's response, 'Registration failed')`; storage is `RegisterItems` of the old |
| `App.Controller.HandleLogout` | src/App.tsx:61-65 | the new state is `LoggedOut` of the old; storage is `LogoutItems` of the old |
| `App.Controller.SwitchAuthMode` | src/App.tsx:67-70 | the new state is `Switched` of the old |
| `App.RegisterThenLogout` | src/App.tsx:17-111 | acting only through the controls on screen, from a storage without a token: the page opens on the login form, switching shows the registration form, registering valid credentials shows the new user's dashboard, logging out then shows the registration form, and the session is gone |
| `Lifetime.Enabled` | src/App.tsx:74-111 | the controls on screen: the dashboard offers only logout; the login form offers a login and the switch to registration; the registration form offers a registration and the switch to login |
| `Lifetime.Step` | src/App.tsx:25-111 | one handler run: an action whose control is not on screen changes nothing; no key other than `token` and `user` changes; nothing starts loading; only a switch changes the mode; a logout clears the session and shows a form without error; a switch keeps storage and user; a login shows the dashboard iff the answer is ok and its token decodes; a registration shows the dashboard iff the credentials are valid |
| `Lifetime.LaunchEstablishesInvariant` | src/App.tsx:12-23 | after load and mount, a user on screen is the stored session's user with a truthy stored token, and nothing is loading |
| `Lifetime.StepPreservesInvariant` | src/App.tsx:25-111 | every action through a rendered control keeps that invariant |
| `Lifetime.RunPreservesInvariant` | src/App.tsx:25-111 | any sequence of actions keeps that invariant |
| `Lifetime.EveryRunKeepsInvariant` | src/App.tsx:12-111 | the invariant holds after load, mount and any sequence of actions |
| `Lifetime.ReloadKeepsDashboard` | src/App.tsx:17-23 | reloading while the dashboard is shown restores the same dashboard |
| `Lifetime.RunKeepsOtherKeys` | src/utils/auth.ts:53-118 | no sequence of actions changes a storage key other than `token` and `user` |
| `Lifetime.LaunchWithoutTokenShowsLoginForm` | src/App.tsx:12-23 | loading with no stored token shows the login form without error |
| `Lifetime.RefusedLoginShowsBody` | src/App.tsx:30-35 | a non-ok login answer leaves storage unchanged and shows its body as the error, or `'Login failed'` for an empty body |
| `Lifetime.UndecodableLoginStaysOnForm` | src/App.tsx:31-34 | an ok answer whose token does not decode is a successful login whose token is stored, yet the login form stays with `'Login failed'` |
| `Lifetime.ValidRegistrationShowsDashboard` | src/App.tsx:48-50 | a valid registration from the registration form shows the dashboard of the new user |
| `Lifetime.ReloadAfterUndecodableLoginShowsStoredUser` | src/App.tsx:17-41 | with a user already stored, an ok login whose body is non-empty and does not decode stays on the login form with `'Login failed'`, yet the next page load shows the dashboard of the stored user |
| `Lifetime.ReloadAfterEmptyLoginShowsLoginForm` | src/App.tsx:17-41 | an ok login with an empty body stores the empty token, and the next page load shows the login form without error |
| `Lifetime.Dispatch` | src/App.tsx:25-111 | delivering one action to the controller changes its state and storage exactly as `Step` does |

## Left out

- The network: `fetch` and `response.text()` (src/utils/auth.ts:38-44) are replaced by the `Fetched` input; the backend address and the posted credentials are not modelled.
- `atob`, `JSON.parse` and access to the payload's properties (src/utils/auth.ts:74) are the abstract `decode` input; claims are restricted to a `sub` that is a number or a string and names and email that are strings (other JSON values, such as booleans, floats or nested objects, are not modelled).
- `JSON.stringify` / `JSON.parse` of the stored user (src/utils/auth.ts:55, 101, 124) are the identity.
- Auth.GetStoredAuth: any plain text stored under `user` is read as no user. The source hands a non-empty one to an unguarded `JSON.parse` (src/utils/auth.ts:124), which throws on malformed text and yields a truthy non-user value for well-formed JSON such as `{}` or `1`; the mount effect (src/App.tsx:20-21) would then adopt that value as the user. Neither the exception nor such a value is modelled.
- Auth.Register: the token suffix `Math.random().toString(36).substr(2, 9)` is an arbitrary string input; its length and alphabet are not constrained.
- The one-second `setTimeout` delay in `register`, async scheduling, React re-renders and a second submission while one is in flight: each handler is modelled as one atomic step; the pending state is `App.BeginSubmit`.
- App.Settled: the thrown-exception branch is modelled, but in this model neither `login` nor `register` throws (`login` catches everything; `register` could throw only if a storage write failed, and storage write failures are not modelled), so the controller methods always settle with a returned response.
- Storage write failures (quota) and other tabs sharing the same storage.
- The commented-out mock `login` (src/utils/auth.ts:3-32), dead code.
- `src/components/Dashboard.tsx` and the JSX markup, styling and icons of src/App.tsx:78-119, except the view-selection rule.
