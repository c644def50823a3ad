# Device console client: session, route guard and listing normalisation

A Dafny model of the decision and state logic of a thin Nuxt client for a
device ("customer") management console. It covers three pieces.

- **Session** (`useAuth`). A remember-me preference cookie and two token
  cookies (access and refresh). `login`, `refresh` and `logout` are pure
  transitions from a `Session` to a `Step`. A `Step` records the new session,
  what happened to the token cookies (untouched, written with a lifetime, or
  cleared), the navigation requested, and whether the call threw. The
  authentication backend is a parameter: it either answers with a body whose
  `token`/`refreshToken` may be missing, or it throws. `loggedIn` is derived
  from the access token.
- **Route guard** (`auth.global.ts`). A total function from a destination path
  and the access-token cookie to `Allow` or `Redirect(target)`. Lemmas show
  that it never loops and that it agrees with `loggedIn`. One lemma joins it
  to the session: the guard admits the navigation each session operation
  requests, except after a login whose reply had no usable token.
- **Listing** (`useCustomers.fetchCustomers`). Query defaults, the choice of
  the record array (`devices`, else `data`, else the body), display-name
  mapping, the three-way pagination fallback, and the error path. Response
  bodies are typed `any` in the client, so they are modelled as general
  JavaScript values (`Js.JsValue`). Truthiness, `||`, property reads, spread
  and `Math.ceil(a / b)` are spelled out in module `Js`.

Files: `wrappers.dfy` (Option, Result), `js.dfy`, `auth.dfy`,
`route_guard.dfy`, `customers.dfy`.

Behaviour of the code worth knowing:
- Login and refresh write whatever `token` and `refreshToken` the reply
  carries, even when one of them is missing (app/composables/useAuth.ts:48-52,
  81-85). So the tokens stay paired only while the backend answers with both
  or neither (`Auth.RunKeepsTokensPaired`).
- Refresh always overwrites both tokens from the reply
  (app/composables/useAuth.ts:84-85).
- The only login endpoint is `/api/Token/login`, and the fields read from its
  reply are `token` and `refreshToken` (app/composables/useAuth.ts:37-49).
- Logout sets the preference to `false` (app/composables/useAuth.ts:94).

## Model

| member | source | states |
|---|---|---|
| `Auth.LoadSession` | app/composables/useAuth.ts:3-15 | The session read at start-up takes the tokens as stored. An unset preference cookie reads as false. |
| `Auth.CookieLifetime` | app/composables/useAuth.ts:8-11 | Token cookies get a max-age of 2592000 s (30 days) exactly when remember is true. Otherwise they are session-only. |
| `Auth.Login` | app/composables/useAuth.ts:19-55 | The preference becomes `remember` whatever the backend does. On an answer: tokens come from the reply, the cookies are written with the lifetime of `remember`, and the app goes to `/customers`. On a throw: the error propagates, both tokens are unchanged, nothing is written and nothing is navigated. |
| `Auth.Refresh` | app/composables/useAuth.ts:57-91 | Never throws and never changes the preference. No-op without a non-empty refresh token. On an answer: both tokens are rotated under the stored preference's lifetime, with no navigation. On a throw: both tokens are cleared and the app goes to `/login`. |
| `Auth.Logout` | app/composables/useAuth.ts:93-98 | Always ends logged out: preference false, both tokens null, cookies cleared, navigation to `/login`. |
| `Auth.TransitionsPermitted` | app/composables/useAuth.ts:19-98 | Every operation moves between Anonymous and Authenticated as the reference state machine allows. A failed refresh with a refresh token always ends Anonymous. A refresh without one keeps the state. |
| `Auth.LoggedInOnlyForNonEmptyToken` | app/composables/useAuth.ts:17 | `loggedIn` holds iff the access token is present and non-empty. `null` and `""` both give false. |
| `Auth.LogoutIdempotent` | app/composables/useAuth.ts:93-98 | Logging out twice gives the same step as logging out once. |
| `Auth.RefreshWithoutTokenIgnoresBackend` | app/composables/useAuth.ts:58 | Without a refresh token the result does not depend on the backend reply (no call is made) and the session is identical. |
| `Auth.WrittenLifetimeMatchesPreference` | app/composables/useAuth.ts:29-69 | Whenever tokens are written through the explicitly built options, their lifetime is the one of the preference the session holds afterwards: the `remember` argument on login, the stored preference on refresh. |
| `Auth.TokensChangeTogether` | app/composables/useAuth.ts:48-96 | The token cookies are left untouched exactly when both tokens keep their values because the call failed (login), was skipped (refresh), or did not touch them. |
| `Auth.RunKeepsTokensPaired` | app/composables/useAuth.ts:48-96 | Over any sequence of calls, if every reply has both tokens or neither, the session never has one token set without the other. |
| `Auth.RunEndingInLogout` | app/composables/useAuth.ts:93-98 | Any sequence of calls that ends in logout leaves the fully reset session. |
| `Auth.LoginThenTwoRefreshes` | app/composables/useAuth.ts:48-85 | Login with any preference followed by two successful refreshes with non-empty tokens: logged in after each step, with the latest access token, and the preference is the one given to login. |
| `Auth.RememberedLoginScenario` | app/composables/useAuth.ts:27-54 | Login with remember against `{token:"T1", refreshToken:"R1"}` gives tokens T1/R1, preference true, a 30-day write and navigation to `/customers`. |
| `RouteGuard.Guard` | app/middleware/auth.global.ts:1-16 | Allows exactly when "token present" and "destination is protected" agree. Any redirect goes to `/login` or `/customers` and never to the destination itself. |
| `RouteGuard.GuardCases` | app/middleware/auth.global.ts:5-16 | Token and `/login` gives a redirect to `/customers`. No token and any other path gives a redirect to `/login`. The two remaining cases allow. |
| `RouteGuard.GuardConverges` | app/middleware/auth.global.ts:5-15 | Re-running the guard on a redirect target with the same token allows it, so there are no redirect loops. |
| `RouteGuard.GuardDependsOnlyOnPresence` | app/middleware/auth.global.ts:2-15 | Two sessions with the same `loggedIn` value get the same decision. The refresh token and the preference play no part. |
| `RouteGuard.GuardAgreesWithLoggedIn` | app/middleware/auth.global.ts:8-15 | A protected path is allowed iff the session is logged in. `/login` is allowed iff it is not. |
| `RouteGuard.NavigationAdmitted` | app/composables/useAuth.ts:54-97 | The navigation an operation requests is allowed by the guard on the resulting session, iff that operation is not a login whose reply carried an absent or empty token. |
| `RouteGuard.LogoutLocksProtectedPaths` | app/middleware/auth.global.ts:13-15 | After logout every path other than `/login` redirects to `/login`. |
| `Customers.InitialPagination` | app/composables/useCustomers.ts:8-13 | Initial pagination is page 1, size 20, 0 records, 0 pages. |
| `Customers.InitialState` | app/composables/useCustomers.ts:5-13 | The list starts empty, not loading, with no error and the initial pagination. |
| `Customers.BuildQuery` | app/composables/useCustomers.ts:28-35 | Page number and size fall back to the current pagination when absent or 0. `sortBy` defaults to "DeviceName" when absent or empty. `sortDescending` defaults to false only when absent, so an explicit false is kept. `searchTerm` defaults to "". |
| `Customers.QueryIgnoresFilters` | app/composables/useCustomers.ts:15-35 | The `status` and `deviceType` arguments do not affect the query. |
| `Customers.DefaultQuery` | app/composables/useCustomers.ts:28-35 | The first call with no arguments asks for page 1 of 20, sorted by DeviceName ascending, with an empty search. |
| `Customers.RawData` | app/composables/useCustomers.ts:46 | Records come from a truthy `devices`, else a truthy `data`, else the body itself. |
| `Customers.DisplayName` | app/composables/useCustomers.ts:50 | The name is a truthy `deviceName`, else a truthy `name`, else "Unknown Device". It is always truthy. |
| `Customers.WithName` | app/composables/useCustomers.ts:48-51 | A mapped record has exactly the original keys plus `name`. Every other property is unchanged and `name` is the display name. |
| `Customers.MapNames` | app/composables/useCustomers.ts:48-51 | Mapping succeeds iff no element is null/undefined. On success the list has the same length and element i is element i with its name. Otherwise it throws a TypeError. |
| `Customers.Records` | app/composables/useCustomers.ts:46-51 | A null/undefined body throws. A non-array source gives no records. An array source is name-mapped. |
| `Customers.RecordsNamed` | app/composables/useCustomers.ts:48-51 | Every produced record is an object with a truthy name, and there are as many records as array elements. |
| `Customers.NormalisePagination` | app/composables/useCustomers.ts:54-76 | A defined `totalCount` wins (page number/size fall back to the query, page count to 0). Otherwise a truthy nested `pagination` is copied field by field. Otherwise a truthy `totalRecords` gives the query's page and size with the page count `ceil(totalRecords / pageSize)`. Otherwise pagination is unchanged. |
| `Customers.DerivedPageCount` | app/composables/useCustomers.ts:69-75 | For positive records and page size the derived page count k is at least 1 and satisfies (k-1)*pageSize < totalRecords <= k*pageSize. |
| `Customers.ZeroTotalRecordsKeepsPagination` | app/composables/useCustomers.ts:69 | `{totalRecords: 0}` leaves the pagination unchanged. |
| `Customers.NullTotalCountWins` | app/composables/useCustomers.ts:54 | A `null` totalCount still takes the first branch, because only undefined is skipped. |
| `Customers.BeginFetch` | app/composables/useCustomers.ts:24-25 | While the request is in flight, loading is true and the error is cleared. Records and pagination are unchanged. |
| `Customers.FetchCustomers` | app/composables/useCustomers.ts:15-88 | Loading is false afterwards. There is no error iff the body was delivered and its records could be read, and then records and pagination are replaced by the normalised ones. On any failure records and pagination are unchanged and the error is the non-empty message, or "Error fetching customers". |
| `Customers.FetchIdempotent` | app/composables/useCustomers.ts:28-76 | Repeating a fetch with the same arguments and the same reply leaves the state where the first fetch put it. |
| `Customers.FortyFiveRecordsScenario` | app/composables/useCustomers.ts:28-75 | First fetch of `{totalRecords: 45}` gives pagination {1, 20, 45, 3} and no records. |
| `Js.ToNumber` | app/composables/useCustomers.ts:74 | The `/` conversion always yields a number, NaN or an infinity, and keeps non-zero numbers. |
| `Js.CeilDiv` | app/composables/useCustomers.ts:74 | The integer ceiling of p/q. For q > 0: (r-1)*q < p <= r*q. For q < 0: the mirror bounds. |
| `Js.CeilDivUnique` | app/composables/useCustomers.ts:74 | For q > 0 those bounds determine the ceiling uniquely. |
| `Js.CeilOfQuotient` | app/composables/useCustomers.ts:74 | `Math.ceil(a / b)` meets the ceiling bounds for numeric a and positive b. It is Infinity for positive a over 0, and NaN when either operand is NaN. |

## Left out

- The HTTP layer (`$fetch`, the API base URL, bearer headers, request bodies): the backend is the `AuthReply` / `FetchReply` parameter, and the login credentials, which only go to the backend, are not parameters.
- Cookie storage and real expiry clocks: a cookie is a field plus a `Lifetime` tag. The write of the preference cookie itself, with its fixed 30-day max-age (app/composables/useAuth.ts:3-6), is not recorded in a `Step`; only its value is.
- The duplicated cookie handles (`at`/`rt` next to `accessToken`/`refreshToken`) write the same cookie names and are one store here. The written lifetime is that of the explicitly built options (app/composables/useAuth.ts:29-35, 63-69).
- The composable's own `accessToken`/`refreshToken` handles carry the lifetime of the preference as it was when `useAuth()` ran (app/composables/useAuth.ts:14-15), and login and refresh write through them too (lines 51-52, 84-85). That lifetime can disagree with the explicit one: `login(e, p, true)` on a composable created while the preference was false writes the access token once for 30 days and once session-only. Which write lands depends on the framework and is not modelled, so the model does not promise which lifetime the browser finally keeps.
- Vue reactivity (`ref`, `computed`) and async interleaving of concurrent calls: each operation is atomic.
- `navigateTo` is an emitted event. A navigation that itself fails is not modelled.
- The CRUD wrappers `getCustomer`, `createCustomer`, `updateCustomer`, `deleteCustomer`: thin foreign calls followed by a refetch.
- `console.error` logging, and the `e.response` details it prints.
- The build, proxy and dev-server configuration, including the literal `/` to `/login` route rule.
- `Js.ToNumber`: strings, arrays and objects are all taken to NaN. JavaScript converts numeric strings to their number, `""` and whitespace-only strings to 0, `[]` to 0, and one-element arrays to the number of their element.
- `Js.CeilOfQuotient`: numbers are unbounded integers. Fractions, negative zero and double-precision rounding are not modelled.
- `Customers.WithName`: spreading a string or an array copies its indices in JavaScript. The model copies no properties from non-objects.
- `Js.Get`: inherited properties (such as `length` of strings and arrays) are not modelled. None of the keys the client reads is one.
- `Customers.TypeErrorMessage` is a placeholder for the engine's TypeError text. The model only relies on it being non-empty.
