# Nexus attendance dashboard: session and attendance-state core

This project models the part of the Nexus attendance dashboard that holds state and makes decisions:

- the **session context** (`AuthProvider`). It holds one session snapshot (`user`, `token`, `isAuthenticated`, `isLoading`) and a two-key credential store (`nexus_token`, `nexus_user`). Start-up, login, registration and logout change both in place.
- the **mode selector**. With no backend URL, an empty one, or one that contains `localhost`, every service answers locally ("fallback mode").
- the **auth, attendance and admin services**. Each operation either answers locally or sends one request to the backend. A service then passes the backend's reply through or converts it: backend users to client users, attendance records to client records, counters with `|| 0` defaults. The service also derives today's status from the head of the history.
- the **route guard**. It picks between a spinner, a redirect to `/login`, a redirect to `/dashboard`, or rendering the page.

Modules follow the source files: `AuthContext` (`src/contexts/AuthContext.tsx`), `AuthService`, `AttendanceService`, `AdminService` (`src/services/*.service.ts`), `ProtectedRoute` (`src/components/auth/ProtectedRoute.tsx`). Several small modules support them:

- `Types`: the records of `src/types/index.ts`, and the session invariant `Consistent`: authenticated exactly when both user and token are set.
- `Storage`: the store keys, and JSON serialization of a profile as a `ProfileCodec`.
- `Api`: requests, reply shapes, and the backend-to-client user conversion that two services share.
- `Mode`: the mode selector.
- `Js`: JavaScript truthiness, `||` defaulting, and `String.prototype.includes`.
- `Wrappers`: `Option` and `Result`.

How the model represents the source's runtime:

- Every service operation is a function returning an `Effect`. Its `sent` field is the request sent, or `None` when the backend is never called. Its `result` field is the value the call resolves to, or the error it rejects with.
- The backend's reply is a parameter of the operation.
- The current time, the ISO timestamp and the calendar day ("today", and the day of a timestamp) are parameters too.
- The optional backend string fields are `Option<string>`, with `None` for absent or `null`: a user's department, position and phone, and a record's user id, check-out time, location and device. The empty string counts as falsy wherever the code uses `||` or `!`. The remaining identity fields are plain strings (see "## Left out").
- The flags `is_admin` and `is_active` may be any JSON value (`Js.JsValue`). This matters because `0` is falsy but is not `=== false`.

Three behaviours of the code worth noting:

- The session context never calls the auth service. Its login accepts *any* password for either of its two demo e-mails. Only the auth service insists on the pair `admin@nexus.com` / `Admin@123`.
- Fallback mode is chosen only by the substring `localhost`; `http://127.0.0.1:8000` selects the remote mode.
- Registration in the context makes no backend call and does not go through a separate login. It builds the user locally, authenticates it at once, and always stores the session.

## Model

| member | source | states |
|---|---|---|
| `Js.IncludesIffOccurs` | src/services/auth.service.ts:4 | `includes` holds exactly when the substring occurs at some index |
| `Mode.Select` | src/services/auth.service.ts:4 | fallback mode iff the URL is absent or empty or contains `localhost` |
| `Mode.NumericLoopbackIsRemote` | src/services/auth.service.ts:4 | `http://127.0.0.1:8000` does not select fallback mode |
| `Mode.LocalhostAnywhereIsFallback` | src/services/auth.service.ts:4 | any URL containing `localhost`, anywhere, selects fallback mode |
| `Api.ToClientUser` | src/services/auth.service.ts:69-80 | role is admin iff `is_admin` is truthy; inactive iff `is_active` is exactly `false`; identity, contact and creation fields copied |
| `Api.ClientUserRoundTrip` | src/services/auth.service.ts:74-78 | converting a client user to the backend shape and back gives the same user |
| `Api.OnlyLiteralFalseDeactivates` | src/services/auth.service.ts:78 | a missing, null, zero or empty `is_active` still means active |
| `AuthService.DemoAdmin` | src/services/auth.service.ts:6-17 | the built-in administrator: the demo e-mail, the admin role, active, with department, position and phone set, created when the module loads |
| `AuthService.Login` | src/services/auth.service.ts:20-32 | stays local iff fallback mode and the exact demo pair; then it yields the demo admin and a `demo_token_` token; otherwise it sends the login request and passes the reply or error through |
| `AuthService.OnlyDemoPairStaysLocal` | src/services/auth.service.ts:21-31 | any other e-mail or password goes to the backend |
| `AuthService.Register` | src/services/auth.service.ts:34-58 | fallback: e-mail and names from the form, role user, every other field the demo admin's; remote: `EMP` employee id, and department/position/phone sent as `''` iff missing or empty |
| `AuthService.GetCurrentUser` | src/services/auth.service.ts:60-81 | fallback: the parsed stored profile, or the demo admin when none is stored, with no backend call; remote: the backend user converted |
| `AuthService.Logout` | src/services/auth.service.ts:83-86 | no backend call in fallback mode; otherwise the logout request and its outcome |
| `AttendanceService.CheckIn` | src/services/attendance.service.ts:7-21 | fallback: a local success; remote: location, device and method default to `Main Office — Floor 3`, `web-browser` and `manual` exactly when missing or empty |
| `AttendanceService.CheckOut` | src/services/attendance.service.ts:23-33 | fallback: success with 8.5 hours and no backend call; remote: a POST to `/api/check-out/` + id, passing its reply through |
| `AttendanceService.FallbackCheckOutIgnoresId` | src/services/attendance.service.ts:24-30 | in fallback mode the result does not depend on the record id |
| `AttendanceService.ToRecord` | src/services/attendance.service.ts:44-52 | status is checked-in iff `check_out_time` is missing or empty, never absent, and matches `check_out`; `user_id` defaults to `''`; `date` equals `check_in` |
| `AttendanceService.ToRecords` | src/services/attendance.service.ts:43-53 | the mapping keeps length and order, one converted record per backend record |
| `AttendanceService.GetHistory` | src/services/attendance.service.ts:35-54 | fallback: empty with no backend call; remote: limit and skip default to 30 and 0, and the records are converted in order |
| `AttendanceService.HistoryStatusesConsistent` | src/services/attendance.service.ts:48 | every record from the history is checked-in exactly while its check-out is null |
| `AttendanceService.GetTodayStatus` | src/services/attendance.service.ts:56-66 | none for an empty history; otherwise the first record iff its check-in day is today; never any other record |
| `AdminService.ToClientUsers` | src/services/admin.service.ts:12-23 | the mapping keeps length and order, one converted user per backend user |
| `AdminService.GetUsers` | src/services/admin.service.ts:7-24 | fallback: empty; remote: same length and order, each user converted with every field copied, admin iff `is_admin` truthy and inactive iff `is_active` is exactly `false` |
| `AdminService.GetStats` | src/services/admin.service.ts:26-42 | fallback: all zero; remote: a missing counter reads 0, active-today equals checked-in-now, average hours is 0 |
| `ProtectedRoute.Guard` | src/components/auth/ProtectedRoute.tsx:10-31 | spinner while loading; login when unauthenticated; dashboard iff an admin route meets a non-admin; renders only when authenticated and loaded; admins and non-admin routes always render |
| `ProtectedRoute.RenderedRouteHasSession` | src/components/auth/ProtectedRoute.tsx:22-30 | for a consistent snapshot, a rendered route has both user and token |
| `ProtectedRoute.AdminRouteAcrossSession` | src/components/auth/ProtectedRoute.tsx:14-30 | over one session: spinner, then login, then the admin page after an admin login, then login again after logout |
| `AuthContext.FindByEmail` | src/contexts/AuthContext.tsx:72 | finds a user iff one has that e-mail, and returns the first such user |
| `AuthContext.FindDemoUser` | src/contexts/AuthContext.tsx:13-38 | exactly the two demo e-mails are found; the admin one has the admin role |
| `AuthContext.InitialState` | src/contexts/AuthContext.tsx:41-46 | the start-up snapshot has no user and no token, is not authenticated, is loading, and is consistent |
| `AuthContext.InitializedStateAsWritten` | src/contexts/AuthContext.tsx:48-67 | start-up as written: loading ends; with both keys non-empty and a profile that is not a syntax error, authenticated with the stored token, and without a user exactly when the profile is `null`; otherwise only loading changes |
| `AuthContext.NullProfileBreaksInvariant` | src/contexts/AuthContext.tsx:51-58 | as written, a token stored with the profile text `null` gives an authenticated snapshot without a user |
| `AuthContext.AuthProvider.constructor` | src/contexts/AuthContext.tsx:41-46 | the context starts anonymous and loading over the given store |
| `AuthContext.AuthProvider.Init` | src/contexts/AuthContext.tsx:48-67 | both keys non-empty and the profile parses: authenticated with that user and token, store untouched; profile unreadable: both keys removed, only loading changes; a key missing: store untouched, only loading changes; the invariant holds after |
| `AuthContext.AuthProvider.Login` | src/contexts/AuthContext.tsx:69-80 | succeeds iff the e-mail is a demo e-mail, whatever the password; failure changes neither snapshot nor store; success gives token `demo_jwt_token_` + id and writes both keys iff remember |
| `AuthContext.AuthProvider.Register` | src/contexts/AuthContext.tsx:82-100 | always succeeds with an active ordinary user copied from the form and always writes both keys |
| `AuthContext.AuthProvider.Logout` | src/contexts/AuthContext.tsx:102-106 | removes both keys and leaves the snapshot anonymous and loaded |
| `AuthContext.RememberedLoginSurvivesReload` | src/contexts/AuthContext.tsx:48-80 | after a remembered demo login, a fresh context initialised on the same store restores the same snapshot |
| `AuthContext.UnrememberedLoginReloadsEarlierSession` | src/contexts/AuthContext.tsx:74-79 | a login without remember leaves an earlier stored session in place, and a reload restores that earlier session |

## Findings

| source | as written | input that shows it | evidently intended | confidence | as-written member | corrected member |
|---|---|---|---|---|---|---|
| src/contexts/AuthContext.tsx:51-58 | `JSON.parse` of the stored profile does not throw on the text `null`, so start-up sets `user: null` with `isAuthenticated: true` | `nexus_token` = `"t"`, `nexus_user` = `"null"` | a stored profile that is not a user is purged like one that fails to parse, so that `isAuthenticated` holds iff user and token are set | medium; not executed | `AuthContext.NullProfileBreaksInvariant` | `AuthContext.AuthProvider.Init` |

## Left out

- AuthContext.AuthProvider.Init: a stored profile that parses to `null` is handled like one that fails to parse, as the Findings row explains. The function `AuthContext.InitializedStateAsWritten` keeps the code as written.
- JSON serialization is the parameter `ProfileCodec`, and `Storage.IsJson` states what the round trip needs. The decoder yields only a user, `null` or a syntax error. So a stored profile that parses to a number, a string, a boolean, or an object that is not a user (such as `{}`) cannot be represented. The code would store any such value as `user` unchanged.
- A backend user's id, e-mail, names and creation time, and a record's id and check-in time, are plain strings. A backend that sends `null` or omits these fields cannot be represented.
- The HTTP client (`./api`) is not part of this model: bearer-token attachment, base URL and transport. A reply is a parameter. Transport failures, non-2xx statuses and bodies without the expected field (`user`, `records`, `users`, `stats`) are `ServiceError` values.
- The order of asynchronous operations and the simulated 800 ms latency of login and registration are not modelled: the model is sequential. React state, effects, callbacks and the `useAuth` outside-provider error are also out.
- `Date.now()`, `new Date().toISOString()` and `toDateString()` are parameters: `now`, `nowIso`, `loadedAt`, `today` and `dayOf`.
- NaN is not representable, so its falsiness is not modelled. The admin counters are integers.
- `total_hours` is a `real`. Only the constant 8.5 is ever produced locally.
- The `avatar` field of a user and the `user_name` field of a record are never set by the core and are not modelled.
- The three service files each evaluate the mode test themselves. The model evaluates it once, in `Mode.Select`, and passes the mode in; the three tests are identical.
- Page components, layout, the router table and the dashboard cards are presentation and are not modelled.
