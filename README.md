# auth_fast_admin session gateway and session client, in Dafny

This project models the core of `auth_fast_admin`. That is a set of Vercel
serverless handlers in front of an upstream admin API, plus a small browser
client. It covers:

- **Cookie handling.**
  - `parseCookies` turns a `Cookie` header (the cookie-string of section
    4.2.1 of RFC 6265) into a name-to-value map. It is a loop that fills a
    map, proved against a specification function.
  - The `Set-Cookie` attribute builders: Path, HttpOnly, SameSite, Max-Age
    and an optional Secure (section 4.1.1 of RFC 6265). There are two
    styles:
    - the shared helpers use `Path=/; SameSite=Lax`;
    - the legacy `api/login.ts` and `api/refresh.ts` use
      `Path=/api; SameSite=Strict`.
- **Base-URL normalisation.** `getBaseApiFromEnv` trims, strips one
  matching quote pair and one trailing `/`, and falls back to
  `http://localhost:8080`. The legacy `getBaseApi` only strips the slash.
- **Client-IP selection.** The order is the first `X-Forwarded-For` entry,
  then `X-Real-IP`, then the socket address, then `''`. The header
  projections `getGeoFromHeaders` and `getClientHeaders` are also modelled.
- **The gateway handlers.** Login, the legacy and the current refresh,
  logout, the admin list/create proxy and whoami. Each handler has two
  forms:
  - a specification function returning the reply and the upstream request;
  - a method that writes a `Response` object step by step, proved equal to
    that function.
- **The browser session holder of `src/main.ts`.**
  - A `SessionHolder` class whose `accessToken` field is changed by
    `Login`, `ForceRefresh`, `ClearSession` and `ApiFetch`. `ApiFetch`
    makes at most one refresh and one retry.
  - `decodeJwtPayload`.
- **The cookie across requests.** A `Set-Cookie` line written by login or
  refresh is read back by the next refresh. That refresh sends the
  upstream exactly the token that was issued.

Every outside input is a parameter:
- each `fetch` result (the upstream reply, or `Unreachable` when the
  promise rejects);
- the environment variables (`END_POINT_API`, `NODE_ENV`, `VERCEL_ENV`);
- the JavaScript primitives the code calls: `encodeURIComponent`,
  `decodeURIComponent`, `JSON.parse`, `String()`, `new URL`,
  `Number.parseInt`, `atob`.

These primitives are fields of `Foreign.Primitives`. The round-trip
lemmas assume only `UriCodecSound`: decoding inverts encoding, and an
encoded value contains no `;`.

`api/_shared.ts` repeats `api/_lib/env.ts` and `api/_lib/cookies.ts`
word for word, so the same members model both copies; a row cites one of them.

Behaviours the code does not have:
- The legacy `api/login.ts` has no pass-through for a 202 second-factor
  challenge. Any 2xx reply without both tokens becomes a 502
  (`Login.LoginRejectsPartialSuccess`).
- The legacy handlers write the cookie with `Path=/api; SameSite=Strict`,
  not `Path=/; SameSite=Lax` (`Cookies.CookieStylesDiffer`).
- `apiFetch` never refreshes for a URL under `/api/`. Every gateway call
  is such a URL, so the reactive retry is reachable only for other URLs
  (`Session.GatewayUrlsFetchOnce`).
- The code has no proactive renewal timer, start-up refresh or in-flight
  refresh guard.

## Model

| member | source | states |
|---|---|---|
| Cookies.CookieAttrs | api/_lib/cookies.ts:1-11 | `Path=/; HttpOnly; SameSite=Lax; Max-Age=<n>`, followed by `; Secure` exactly when the production flag holds |
| Cookies.ClearCookieAttrs | api/_lib/cookies.ts:13-18 | equals `CookieAttrs(0)` for the same production flag |
| Cookies.LegacyCookieAttrs | api/login.ts:8-18 | `Path=/api; HttpOnly; SameSite=Strict; Max-Age=<n>`, with `; Secure` exactly in production |
| Cookies.LegacyClearCookie | api/refresh.ts:31-36 | equals the legacy attributes with `Max-Age=0` |
| Cookies.CookieStylesDiffer | api/refresh.ts:19-29 | the legacy and shared attribute lines differ for every max-age and flag |
| Cookies.AttrLine | api/_lib/cookies.ts:3-10 | the attributes joined by `; `, with the optional `Secure` last |
| Cookies.SplitPairs | api/_lib/cookies.ts:23 | the segments of `split(/;\s*/)`: the text before the first `;`, then the rest with leading whitespace dropped |
| Cookies.SegmentOf | api/_lib/cookies.ts:24-25 | a segment without `=` contributes nothing; otherwise the name is the text before the first `=` and the value is everything after it |
| Cookies.ParsedCookies | api/_lib/cookies.ts:20-28 | an absent or empty header gives the empty map; a value that does not percent-decode makes the whole parse fail |
| Cookies.ParseCookies | api/_lib/cookies.ts:20-28 | the loop that fills the record computes `ParsedCookies` |
| Cookies.FillAppend | api/_lib/cookies.ts:23-26 | one more segment updates the map of the earlier ones |
| Cookies.FillSkipsNoPair | api/_lib/cookies.ts:24-25 | a segment without `=` leaves the map unchanged |
| Cookies.FillFailsOnMalformed | api/_lib/cookies.ts:25 | a segment whose value fails to decode makes the parse fail |
| Cookies.SplitAfterPrefix | api/_lib/cookies.ts:23 | splitting `a;rest` gives `a` followed by the split of `rest` without its leading whitespace |
| Cookies.SplitAppend | api/_lib/cookies.ts:23 | splitting `h; seg` gives the segments of `h` followed by `seg` |
| Cookies.SinglePair | api/_lib/cookies.ts:20-28 | a single `name=raw` pair parses to `{name: decode(raw)}` |
| Cookies.LaterPairWins | api/_lib/cookies.ts:23-25 | when a name appears again, its later value replaces the earlier one |
| Cookies.RefreshTokenRoundTrip | api/_lib/cookies.ts:20-28 | parsing `refresh_token=` + the encoded token gives the token back under `refresh_token` |
| Env.IsProd | api/_lib/cookies.ts:2 | production means `NODE_ENV` is `production` or `VERCEL_ENV` is non-empty |
| Env.BaseApi | api/_lib/env.ts:1-13 | the result is the fallback `http://localhost:8080` or a value `new URL` accepts |
| Env.GetBaseApiFromEnv | api/_shared.ts:1-13 | the step-by-step reassignments of `v` compute `BaseApi` |
| Env.BaseApiUnset | api/_lib/env.ts:3-11 | an absent or empty `END_POINT_API` gives `http://localhost:8080` |
| Env.BaseApiTrimsFirst | api/_lib/env.ts:4 | surrounding whitespace is removed once, before the quotes are looked at |
| Env.BaseApiUnquotes | api/_lib/env.ts:5-9 | one matching outer pair of `"` or `'` is removed |
| Env.BaseApiKeepsUnmatchedQuotes | api/_lib/env.ts:5-9 | mismatched outer quotes are kept |
| Env.BaseApiDropsOneSlash | api/_lib/env.ts:10 | exactly one trailing `/` is removed, so `http://h//` becomes `http://h/` |
| Env.BaseApiKeepsCleanUrl | api/_lib/env.ts:3-11 | a valid URL with no padding, quotes or trailing slash comes back unchanged |
| Env.LegacyBaseApi | api/login.ts:3-6 | an absent or empty variable gives the fallback; otherwise one trailing `/` is removed, with no trimming and no quote handling |
| Env.LegacyBaseApiKeepsPadding | api/refresh.ts:3-6 | surrounding whitespace survives the legacy normalisation |
| Env.BaseApisAgreeOnCleanUrls | api/_lib/env.ts:1-13 | both normalisations agree on a clean valid URL |
| Request.ForwardedIp | api/_lib/request.ts:7-8 | a string header gives its text before the first `,`, trimmed; an array gives its first element, trimmed |
| Request.RealIp | api/_lib/request.ts:9 | a string `X-Real-IP`, trimmed |
| Request.FirstNonEmpty | api/_lib/request.ts:6-11 | the first non-empty candidate, or `''` when there is none |
| Request.GetClientIp | api/_lib/request.ts:3-12 | the reassignments of `ip` pick the first non-empty value among forwarded, real and socket address |
| Request.ForwardedIpFirst | api/_lib/request.ts:7-8 | a non-empty forwarded value decides the IP |
| Request.RealIpSecond | api/_lib/request.ts:9 | `X-Real-IP` is used only when the forwarded value is empty |
| Request.RemoteAddressLast | api/_lib/request.ts:10 | the socket address is the last resort |
| Request.BlankForwardedEntryFallsThrough | api/_lib/request.ts:7-9 | an `X-Forwarded-For` whose first comma-separated entry is only white space (such as `" , 1.2.3.4"`) gives an empty forwarded IP, so a non-blank `X-Real-IP` is used |
| Request.ProjectField | api/_lib/request.ts:14-35 | each projected field is the header value, or `''` when absent |
| Request.GeoFromHeaders | api/_lib/request.ts:14-23 | the six geolocation fields, each the header value or `''` |
| Request.ClientHeaders | api/_lib/request.ts:25-35 | the seven client fields, each the header value or `''` |
| Http.RequestBody | api/login.ts:26 | an object or array body is used as it is; a falsy body stands for `{}`; a string is parsed, and a failed parse is the only failure; a truthy number or boolean is kept |
| Http.UpstreamJson | api/login.ts:38 | an upstream body that is not JSON reads as `{}` |
| Http.Response.SetHeader | api/login.ts:48 | `res.setHeader` replaces that header and leaves the rest of the response unchanged |
| Tokens.StoredRefreshToken | api/refresh.ts:44-45 | no cookie header gives `''`; a value that does not decode, or an array-valued header, fails |
| Tokens.TokenAnswer | api/refresh.ts:57-70 | unreachable gives 500; a non-2xx is relayed; a 2xx without both tokens gives 502; otherwise the cookie is set and the body holds the access token |
| Tokens.TokenAnswerSuccessOnly | api/login.ts:39-49 | a 2xx comes out only as a 200 with both tokens, and its body never holds the refresh token |
| Login.Credentials | api/login.ts:26 | destructuring fails exactly on a body that parsed to `null` |
| Login.LoginExchange | api/login.ts:20-53 | non-POST gives 405 first; a non-JSON string or a `null` body gives 500; missing credentials give 400 before any upstream call; the upstream is called exactly when both credentials are truthy, and its answer goes through `TokenAnswer` (relay, 502, or 200); Set-Cookie is present exactly on a 200 |
| Login.LoginRejectsPartialSuccess | api/login.ts:39-46 | an upstream 2xx without both tokens, 202 included, gives 502 with no cookie |
| Login.LoginReachesSuccess | api/login.ts:26-49 | both credentials and an upstream 2xx carrying both tokens give the 200 reply |
| Login.LoginSuccess | api/login.ts:48-49 | a 200 carries the encoded refresh token with the legacy attributes, and the body `{success, access_token}` |
| Login.HandleLogin | api/login.ts:20-53 | the early-return ladder writes exactly `LoginExchange`'s reply to `res` |
| Refresh.RefreshExchange | api/refresh.ts:38-74 | non-POST gives 405; no cookie gives 401 without an upstream call; any upstream non-2xx clears the cookie; a 2xx without both tokens gives 502 and leaves the cookie alone; a fetch that throws gives 500 |
| Refresh.RefreshSuccess | api/refresh.ts:69-70 | a 200 rotates the cookie to the new refresh token and returns only the access token |
| Refresh.HandleRefresh | api/refresh.ts:38-74 | the handler writes exactly `RefreshExchange`'s reply |
| AuthRefresh.AuthRefreshExchange | api/auth/refresh.ts:5-25 | the same ladder with the shared base URL and the `Path=/; SameSite=Lax` cookie; a cookie that does not decode gives 500 |
| AuthRefresh.AuthRefreshSuccess | api/auth/refresh.ts:20-21 | a 200 rotates the cookie with the shared attributes and returns only the access token |
| AuthRefresh.HandleAuthRefresh | api/auth/refresh.ts:5-25 | the handler writes exactly `AuthRefreshExchange`'s reply |
| Logout.LogoutReply | api/auth/logout.ts:4-8 | always 200 `{success: true}`, the cookie cleared with `Max-Age=0`, and `Cache-Control: no-store`; the request plays no part |
| Logout.HandleLogout | api/auth/logout.ts:4-8 | the two `setHeader` calls and the status write `LogoutReply` |
| Logout.LogoutExpiresCookie | api/auth/logout.ts:5 | the cleared cookie is the shared attribute line with `Max-Age=0` |
| Admin.Authorization | api/admin/index.ts:5 | the lower-case header when it is a non-empty string; the capitalised one, under the same test, when the first is absent or falsy; an array or an empty value is missing |
| Admin.PageOffset | api/admin/index.ts:14-18 | the offset is at least 0; the default is 0, and an unparsable or negative value becomes 0; a value in range passes through |
| Admin.PageLimit | api/admin/index.ts:15-20 | the limit is in 1..100; the default is 20, an unparsable or non-positive value becomes 20, and a larger one becomes 100 |
| Admin.PageClampIdempotent | api/admin/index.ts:16-20 | clamping a clamped value changes nothing |
| Admin.PageDefaults | api/admin/index.ts:16-17 | with no query values the page is offset 0, limit 20 |
| Admin.Relay | api/admin/index.ts:27-31 | the status is the upstream status; a JSON content-type relays the text verbatim, otherwise the body is `{success: ok, raw: text}` |
| Admin.AdminExchange | api/admin/index.ts:4-60 | methods other than GET and POST give 405 before Authorization is looked at; a missing or array-valued Authorization gives 401 with no upstream call; an authorized GET, or an authorized POST whose body decodes, always calls the upstream; a POST sends the decoded body to `${base}/admin` with the caller's Authorization |
| Admin.ListExchange | api/admin/index.ts:7-35 | the list request carries the clamped offset and limit and the caller's Authorization |
| Admin.CreateExchange | api/admin/index.ts:37-57 | a string body that is not JSON gives 500; otherwise the parsed body is forwarded with the caller's Authorization |
| Admin.HandleAdmin | api/admin/index.ts:4-60 | the handler writes exactly `AdminExchange`'s reply |
| Admin.List | api/admin/index.ts:11-34 | the reassignments of `offset` and `limit` and the relay write `ListExchange`'s reply |
| Admin.Create | api/admin/index.ts:41-56 | the create branch writes `CreateExchange`'s reply |
| Whoami.WhoamiFields | api/whoami.ts:4-23 | the keys are `ip` and the table keys; the IP is `getClientIp`'s (forwarded, then real, then socket address); `ua` and `acceptLanguage` are their headers' values or `''` |
| Whoami.WhoamiAgreesWithHelpers | api/whoami.ts:17-22 | every geolocation field equals the one `getGeoFromHeaders` gives |
| Whoami.HandleWhoami | api/whoami.ts:3-27 | always 200 with `Cache-Control: no-store` and the fields above |
| Session.FirstCall | src/main.ts:46-53 | the first request carries `Authorization: Bearer <token>` exactly when a token is held and the URL does not start with `/api/refresh`, and keeps every other header of the caller |
| Session.FetchPlan | src/main.ts:45-72 | at most three requests; a non-401 reply or an `/api/` URL is returned after one; a 401 elsewhere always triggers the refresh; a rejected refresh or a 2xx one that is not JSON rejects; a non-2xx refresh or one without a truthy `access_token` returns the first 401 and keeps the token; otherwise that `access_token` is stored, the retry carries it, and its outcome is the result |
| Session.GatewayUrlsFetchOnce | src/main.ts:54-56 | a URL under `/api/` is fetched once and never changes the token |
| Session.SessionHolder.ApiFetch | src/main.ts:45-72 | the method's requests, result and new `accessToken` are those of `FetchPlan` |
| Session.Settle | src/main.ts:81-86 | a non-2xx throws the truthy `data.message` as a string, or else `<what> falhou (<status>)`, and keeps the token; a 2xx stores `access_token` or null |
| Session.SessionHolder.Login | src/main.ts:74-90 | sends the credentials to `/api/login` and moves the token as `Settle` says |
| Session.SessionHolder.ForceRefresh | src/main.ts:92-101 | posts to `/api/refresh` and moves the token as `Settle` says |
| Session.SessionHolder.ClearSession | src/main.ts:109-114 | the token becomes null |
| Session.RetryHeadersAsWritten | src/main.ts:68 | the retry headers as written: the new bearer is appended to the old `authorization` value |
| Session.RetryAsWrittenResendsStaleToken | src/main.ts:49-68 | as written, a retry after a request that carried a token sends `Bearer old, Bearer new` |
| Session.RetrySendsBothCredentials | src/main.ts:68 | as written, the retry credential differs from the new bearer whenever an old one was present |
| Session.RetryHeaders | src/main.ts:68 | the retry carries the new bearer alone and keeps every other header |
| Session.FromBase64Url | src/main.ts:32 | `-` becomes `+`, `_` becomes `/`, everything else is unchanged (section 5 of RFC 4648) |
| Session.LastTwoDigits | src/main.ts:36 | `("00" + n.toString(16)).slice(-2)` is the two hexadecimal digits of `n % 256` |
| Session.EscapeEncodesByte | src/main.ts:36 | each byte becomes `%` and two hex digits that denote that byte |
| Session.PercentEscaped | src/main.ts:34-37 | three characters per byte, each triple the escape of that byte |
| Session.DecodeJwtPayload | src/main.ts:28-43 | null when the second `.`-segment is missing or empty; otherwise the decoding of that segment |
| Session.DecodeSegment | src/main.ts:32-42 | null when `atob`, `decodeURIComponent` or `JSON.parse` fails; otherwise the parsed JSON |
| Session.EmptyPayloadIsNull | src/main.ts:30-31 | an empty payload segment, as in `a.` or `a..b`, gives null |
| Session.PayloadSegmentOnly | src/main.ts:30 | of `header.payload.signature` only the payload is decoded |
| Rotation.StoredCookieReadsBack | api/login.ts:48 | the cookie a handler writes, as the browser returns it, gives the refresh handlers the same token |
| Rotation.LoginThenRefresh | api/refresh.ts:44-55 | after a successful login, the legacy refresh sends the upstream the refresh token the login received |
| Rotation.RefreshThenRefresh | api/refresh.ts:69 | each successful legacy refresh rotates the cookie, and the next refresh sends the new token |
| Rotation.AuthRefreshThenRefresh | api/auth/refresh.ts:8-20 | the same rotation through the shared-attribute refresh |

## Left out

- Network I/O. Every `fetch` is an input: the upstream reply (status, content type, body text) or a rejection.
- Environment reads. `process.env` becomes the `Env` record passed to the handlers.
- The JavaScript primitives. `encodeURIComponent`, `decodeURIComponent`, `JSON.parse`, `JSON.stringify`, `String()`, `new URL`, `Number.parseInt` and `atob` are uninterpreted functions. Only `UriCodecSound` is assumed about them, and only where a lemma says so.
- The `detail` field of the 500 replies. It holds `String(err?.message || err)`, the text of a foreign exception. The model's 500 body has `success` and `message` only.
- Node's case folding of incoming header names. Incoming headers are a map that is already lower-cased, as Node delivers them.
- The `content-type` header that `res.json` adds. The model records the payload kind (`JsonBody` or `TextBody`) instead.
- Session.Answer: a browser response is reduced to its status and body text. Its other headers are not read by the modelled code.
- JavaScript numbers. `JSON.parse` of a number gives a `real`, and `String()` of a value is the `toText` primitive. Number formatting and the limits of floating point are not modelled.
- `encodeURIComponent` throwing on a lone surrogate. `UriCodecSound` rules it out where it is assumed.
- Telemetry handlers (`api/telemetry.ts`, `api/system/telemetry.ts`). They only log with the clock and `console.log`.
- The relay-only proxies (`api/admin/password.ts`, `api/admin/auth/mfa/verify.ts`, `api/openapi.ts`, `api/health.ts`). They hold no decision beyond the relay rule of `Admin.Relay`.
- The thin wrappers `api/system/whoami.ts`, `api/system/config.ts` and `api/defaults.ts`.
- The DOM and UI of `src/main.ts`: `checkServerlessAvailable` and its 2500 ms abort, `health`, the defaults loader, `setText` and the event wiring. So the token text and the decoded payload that `login`, `forceRefresh` and `apiFetch` display are not modelled.
- Session.FetchPlan: the retry carries the corrected headers (`Session.RetryHeaders`), not the appended `Bearer old, Bearer new` of the code as written (`Session.RetryHeadersAsWritten`); see Findings.
- Session.SessionHolder.ApiFetch: the model sends the retry with the corrected headers (`Session.RetryHeaders`). The code as written is `Session.RetryHeadersAsWritten`; see Findings.
- Session.Lower: header names are lower-cased by ASCII case only. The name `Authorization` that the code sets is written directly as its lower-case form `authorization`.

## Findings

| source | as written | input that shows it | evidently intended | confidence | as-written member | corrected member |
|---|---|---|---|---|---|---|
| src/main.ts:68 | the retry builds `new Headers({ ...Object.fromEntries(headers), Authorization: bearer })`. `Object.fromEntries` yields the lower-cased `authorization` from the first request, a different key from `Authorization`, so the new `Headers` appends both values | a token `a` is held; `apiFetch` of a URL outside `/api/` gets 401; the refresh returns `access_token` `b`. The retry then sends `authorization: Bearer a, Bearer b` | the retry sends `Bearer b` alone | not executed | Session.RetryAsWrittenResendsStaleToken | Session.RetryHeaders |
