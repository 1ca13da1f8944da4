# Session layer of video-frontend, in Dafny

This project models the session handling of the video-frontend Next.js
application and proves properties of the model. It covers three parts:

- **Auth server actions** (`src/actions/auth/auth.ts`):
  - `verifyToken` decodes a JWT without checking its signature and refuses it once it has expired.
  - `syncBackendCookies` copies the backend's `Set-Cookie` lines into the request's cookie store and picks out the new access token.
  - `signInAction` posts the credentials.
  - `signOutAndRedirect` deletes the session cookies, calls the backend's sign-out and redirects to the sign-in page.
  - `getAccessTokenAction` returns the current session. When the access token is missing or expired, it refreshes with the refresh token, and it signs out when that fails.
- **The API client** (`src/lib/api-client.ts`): `fetchApi` sends a request with the store's cookies and the JSON content type. On a 401 it asks `/auth/refresh-access` once, copies the new cookies and retries once with `skipRefresh`. When the refresh fails it signs out. In every other case the response becomes a thrown error, `{}` (for 204), parsed JSON or text.
- **The route guard** (`src/middleware.ts`): it redirects to `/sign-in` when there is no `accessToken` cookie, and to `/` when a signed-in visitor opens a sign-in page.

## How the model works

Modules follow the source:

| module | contents |
|---|---|
| `Js` | JavaScript truthiness and the string operations used |
| `AuthStore` | the `Payload` record of `src/store/auth.ts` and the decoded claims |
| `Http` | cookies, the cookie store, requests, responses, and the `RequestContext` class |
| `Auth` | `auth.ts` |
| `ApiClient` | `api-client.ts` |
| `RouteGuard` | `middleware.ts` |

The state of one server request lives in `Http.RequestContext`:

- `store` is the cookie store as a map from name to cookie. `set` overwrites and `delete` removes.
- `sent` is the log of every request sent to the backend.
- `backend` is a function from the requests sent so far to the answer to the last one: either a response or a rejected `fetch`. It stays arbitrary, so every contract holds for every backend behaviour.
- The libraries the code calls are fields the model leaves abstract:
  - `decodeJwt` stands for `jwt-decode`; `None` means it throws.
  - `parseCookie` stands for `set-cookie-parser` on one line.

How the actions end is modelled as `Outcome`: `Returned`, `Thrown` with its message, or `Redirected`. `redirect()` ends the action.

The clock is not modelled. Each reading of `Date.now()` (in milliseconds) is a parameter of the action that reads it. `getAccessTokenAction` reads it twice: `now` for the current token and `later` for the renewed one, after the refresh round trip.

A missing claim is `None`. When `exp` is missing, `exp * 1000 < now` compares NaN and is false, so a token without `exp` never expires.

Two behaviours of the code are easy to misread:

- After a granted refresh, the retried request runs with `skipRefresh`. If it gets 401 again, the code does not treat this as a final failure. The error branch skips status 401, so the body of the second 401 is returned. `ApiClient.FetchApi` and `ApiClient.SettleUnauthorized` state this behaviour.
- The retry (`return fetchApi(...)` inside `try`) is not awaited there. An error it throws therefore reaches the caller and does not lead to a sign-out.

## Model

| member | source | states |
|---|---|---|
| `Js.NatToString` | src/lib/api-client.ts:94 | the status is printed as decimal digits with no leading zero, and those digits spell exactly the status |
| `Http.RequestContext.constructor` | src/actions/auth/auth.ts:73 | a request starts with the cookies it arrived with and no backend call |
| `Http.RequestContext.Fetch` | src/actions/auth/auth.ts:76-81 | `fetch` appends the request to the log and yields the backend's answer to the log so far |
| `Http.RequestContext.Set` | src/actions/auth/auth.ts:38-47 | `cookieStore.set` replaces the cookie of that name and keeps all others |
| `Http.RequestContext.Delete` | src/actions/auth/auth.ts:108-109 | `cookieStore.delete` removes the name and keeps all others |
| `Http.LastNamedIsLast` | src/actions/auth/auth.ts:33-36 | the cookie found by name is one that no later cookie of the list shares a name with; none is found exactly when no cookie has the name |
| `Http.WriteAllLookup` | src/actions/auth/auth.ts:33-48 | after setting a list of cookies, each name holds the last cookie of that name with its attributes (not its domain), and other names are unchanged |
| `Http.Stored` | src/actions/auth/auth.ts:38-47 | the cookie handed to the store has the parsed name, value, httpOnly, secure, path, maxAge, expires and sameSite; the domain is dropped |
| `Http.NonEmptyLines` | src/actions/auth/auth.ts:31 | the lines the parser reads: only non-empty ones, never more than were given, all of them when none is empty |
| `Http.ParseSetCookieLines` | src/actions/auth/auth.ts:31 | for every list of Set-Cookie lines, the parser yields exactly one cookie per non-empty line, in order |
| `Http.CombinedSetCookieTruthy` | src/lib/api-client.ts:55-56 | the joined header is null exactly when there is no Set-Cookie line, and truthy exactly when there are two or more lines or one non-empty line |
| `Auth.PayloadOf` | src/actions/auth/auth.ts:60-66 | the payload keeps exactly the id, role, type, iat and exp claims |
| `Auth.VerifyToken` | src/actions/auth/auth.ts:55-70 | no payload exactly when the token does not decode or `exp * 1000 < now`; otherwise the payload of its claims |
| `Auth.VerifyTokenExpiry` | src/actions/auth/auth.ts:58-60 | a token with `exp` is accepted up to and including millisecond `exp * 1000`, and refused after it |
| `Auth.VerifyTokenWithoutExpiry` | src/actions/auth/auth.ts:58-66 | a decodable token without `exp` is accepted at every time |
| `Auth.VerifyTokenStaysExpired` | src/actions/auth/auth.ts:58 | a token refused once stays refused later |
| `Auth.AccessTokenInIsLast` | src/actions/auth/auth.ts:33-36 | the token returned is the value of an `accessToken` cookie that no later one replaces; null exactly when no cookie is named `accessToken` |
| `Auth.SyncBackendCookies` | src/actions/auth/auth.ts:26-53 | every parsed cookie is written to the store in order; the result is the last `accessToken` value; no Set-Cookie lines means no change and null |
| `Auth.ErrorText` | src/actions/auth/auth.ts:84-85 | the backend's non-empty `message` when there is one, else the fallback |
| `Auth.SignInRequest` | src/actions/auth/auth.ts:76-81 | a POST to `/auth/sign-in` whose body is a JSON object holding exactly the email and password; its only header is the JSON content type, so no cookie goes with it; caching is off |
| `Auth.SignInAction` | src/actions/auth/auth.ts:72-102 | one POST to `/auth/sign-in`. A rejection is thrown again with its own message. A non-ok status is thrown with the backend's message or the default. Neither changes the store. On ok, the cookies are copied and the result is the access token's payload, or null when the token is missing, empty or does not verify |
| `Auth.SignedOut` | src/actions/auth/auth.ts:107-109 | neither session cookie remains; every other cookie is kept unchanged; no cookie is added |
| `Auth.SignedOutIdempotent` | src/actions/auth/auth.ts:107-109 | signing out twice leaves the store as signing out once does |
| `Auth.SignOutRequest` | src/actions/auth/auth.ts:113-116 | a bodiless POST to `/auth/sign-out` whose only header carries the store's cookies, with no cache setting |
| `Auth.SignOutAndRedirect` | src/actions/auth/auth.ts:104-122 | deletes both session cookies, sends one sign-out request with the remaining cookies, ignores its answer and redirects to `/sign-in?reason=session_expired` |
| `Auth.CurrentPayload` | src/actions/auth/auth.ts:126-131 | a session exists only with a non-empty access cookie, and then it is that token's verification |
| `Auth.RefreshRequest` | src/actions/auth/auth.ts:143-149 | a bodiless POST to `/auth/refresh-access` whose only header is the cookie `refreshToken=<token>`, with caching off |
| `Auth.GetAccessTokenAction` | src/actions/auth/auth.ts:124-168 | a verifying access token is returned with no backend call. Without a refresh token: sign-out. Otherwise one refresh with only the refresh cookie. A renewed answer keeps its cookies and returns the new token's verification at the second clock reading (possibly null). Any other answer signs out, after the cookies of an ok answer are copied |
| `ApiClient.RequestUrl` | src/lib/api-client.ts:36 | the URL is `API_URL`, one slash, then the endpoint without its leading slash |
| `ApiClient.RequestUrlLeadingSlash` | src/lib/api-client.ts:36 | `x` and `/x` name the same URL |
| `ApiClient.RequestHeaders` | src/lib/api-client.ts:20-24 | the headers are the JSON content type and the store's cookies, each replaced by a caller header of the same name, plus every caller header |
| `ApiClient.RequestBody` | src/lib/api-client.ts:26-34 | a body is sent iff one is given, always with that value; it is stringified exactly when it is truthy and not a string |
| `ApiClient.BuildRequest` | src/lib/api-client.ts:20-38 | the request carries the caller's method, the merged headers, the body as above and `cache: "no-store"` |
| `ApiClient.RetryKeepsRequest` | src/lib/api-client.ts:74-77 | the retry has the same URL, method, body, cache and header names; only the `Cookie` header may differ |
| `ApiClient.RefreshRequest` | src/lib/api-client.ts:46-51 | a bodiless POST to `/auth/refresh-access` whose only header carries every cookie of the store, with no cache setting |
| `ApiClient.Classify` | src/lib/api-client.ts:98-107 | 204 gives `{}`; a JSON content type gives the parsed body and throws iff it does not parse; any other content type gives the text; never a redirect |
| `ApiClient.FailureTextNamesStatus` | src/lib/api-client.ts:93-94 | the backend's non-empty `message`, or else `API Request Failed: ` followed by digits that spell the status |
| `ApiClient.Settle` | src/lib/api-client.ts:90-107 | a rejected fetch is thrown with its message; a non-ok status other than 401 is thrown with the backend's message or `API Request Failed: <status>`; ok and 401 are classified |
| `ApiClient.SettleUnauthorized` | src/lib/api-client.ts:90-96 | a 401 that is not refreshed is never thrown for its status; it throws only for a JSON body that does not parse |
| `ApiClient.RefreshCookies` | src/lib/api-client.ts:55-69 | corrected: for every response, a granted refresh yields one cookie per non-empty Set-Cookie line, in the order of the lines |
| `ApiClient.RefreshCookiesAsWritten` | src/lib/api-client.ts:55-57 | as written: the joined header is parsed as one cookie, so at most one cookie results |
| `ApiClient.AsWrittenLosesACookie` | src/lib/api-client.ts:55-69 | as written, a refresh that sends `accessToken` and `refreshToken` on two lines never leaves both in a store that had neither |
| `ApiClient.RefreshStoresEveryCookie` | src/lib/api-client.ts:55-69 | corrected, the same refresh stores both cookies exactly as the parser read them |
| `ApiClient.SetCookies` | src/lib/api-client.ts:58-69 | the store after the loop equals the store with every cookie of the list written in order |
| `ApiClient.RefreshGrantedLines` | src/lib/api-client.ts:53-56 | the wrapper retries exactly when the refresh answer is ok and has two or more Set-Cookie lines or one non-empty line |
| `ApiClient.RefreshThenRetry` | src/lib/api-client.ts:41-87 | `RefreshedThenRetried` holds: two more requests, the first a refresh with all the store's cookies. If granted (ok with a Set-Cookie header), the cookies are stored and one retry with `skipRefresh` is built from the new store and settled. Otherwise: sign-out and redirect |
| `ApiClient.FetchApi` | src/lib/api-client.ts:13-108 | the first request is as built; exactly three requests are sent iff the first answer is 401 without `skipRefresh`, and then the last two are as `RefreshedThenRetried` states. Otherwise one request is sent and settled, with the store untouched; a redirect only to `/sign-in?reason=session_expired` after a refused refresh |
| `RouteGuard.Middleware` | src/middleware.ts:4-17 | redirect to `/sign-in` iff no token outside the sign-in pages; to `/` iff a token on them; passes through exactly when token presence and being on a sign-in page differ |
| `RouteGuard.NoRedirectLoop` | src/middleware.ts:9-16 | following a redirect with the same cookies is let through |
| `RouteGuard.PresenceOnly` | src/middleware.ts:5 | only the presence of `accessToken` matters, never its value |
| `RouteGuard.SignUpNeedsSession` | src/middleware.ts:6-11 | `/sign-up` is not a sign-in page, so a visitor without a token is sent to `/sign-in` |
| `RouteGuard.MatchesPrefixes` | src/middleware.ts:19 | the guard runs on a path exactly when it begins with `/` and not with `/api`, `/_next` or `/static` |
| `RouteGuard.MatcherExamples` | src/middleware.ts:19 | both redirect targets are guarded; paths starting with `api`, `_next` or `static` after the slash are not, including `/apiary` |

## Findings

| source | as written | input that shows it | evidently intended | confidence | as-written member | corrected member |
|---|---|---|---|---|---|---|
| src/lib/api-client.ts:55-57 | the refresh path reads `headers.get("set-cookie")`, which joins all Set-Cookie lines with `", "`, and passes that one string to `parse`, which reads one cookie from it | a granted refresh that answers with `Set-Cookie: accessToken=a` and `Set-Cookie: refreshToken=b` stores only one cookie, named `accessToken`, whose value has the rest of the header appended | copy every cookie, as `syncBackendCookies` does with `getSetCookie()` (auth.ts:27-31) | medium, not executed | `ApiClient.RefreshCookiesAsWritten` | `ApiClient.RefreshCookies` |

`ApiClient.FetchApi` uses the corrected `RefreshCookies`. It keeps the source's condition for a granted refresh: the joined header is non-empty.

## Left out

- `signUpAction` (auth.ts:19-24) is one `fetchApi` call with a fixed endpoint and method. It is covered by `ApiClient.FetchApi` and has no model of its own.
- `loginWithGoogle`, `loginWithGithub` and `loginWithKakao` (auth.ts:170-180) are one-line redirects to the backend. They are not modelled.
- The libraries are abstract:
  - `jwt-decode` and `set-cookie-parser` are parameters.
  - `cookieStore.toString()` is kept as a snapshot of the store; its text is not modelled.
  - So the model does not pin down which token texts decode or how one line is split into attributes.
- I/O and framework details are not modelled:
  - `fetch` is the `backend` function, and `Date.now()` is the parameter `now`.
  - Logging (`console.*`) and the `await`s are left out.
  - Concurrent requests are left out.
- `cookieStore.delete` is modelled as removal. Next.js writes an expired empty cookie instead; within one request both read back as no value.
- Auth.VerifyToken: `exp` and `iat` are integers. A fractional NumericDate and claims of the wrong JSON type are not modelled.
- Auth.ErrorText: only a non-empty string `message` is used. A truthy non-string `message`, and the `TypeError` from reading `message` of a `null` JSON body, are not modelled.
- ApiClient.Classify: the text of the `SyntaxError` thrown for a body that does not parse as JSON stands as a fixed constant.
- ApiClient.BuildRequest:
  - Caller headers given as a `Headers` object or an array of pairs, and case-insensitive header names, are not modelled. Headers are a map from exact name to value.
  - Other `RequestInit` fields are not modelled.
  - Numbers in JSON bodies are integers.
- Http.RequestContext.Set: the `domain` of a parsed cookie is dropped, as the code does. Attributes the parser returns beyond those the code copies are not modelled.
- RouteGuard.Matches: the matcher is modelled on the pathname text, as prefix checks after the leading slash. Next.js's compilation of the pattern and its locale and base-path handling are not modelled.
- The UI components and the client-side `userAtom` store are outside the session layer and are not modelled.
