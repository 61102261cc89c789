# TEC social network client: session service, response rules and sign-up checks

This project is a Dafny model of the logic in a React Native client for a social network backend hosted at `https://tec-social-network.onrender.com`. It covers three parts and proves properties about each.

* **`AuthServices`** (utils/Auth.js) is the session and backend-availability service.
  * It has two in-memory fields: the `isServerAwake` flag and the `token` cache.
  * It sits in front of a durable secure store with the keys `userToken` and `userData`.
  * It runs a wake-up loop: up to twelve health probes, with a progress callback before each probe and a 5 s pause after each failed probe.
  * `login` and `signUp` persist the session only on success. `logout` clears the session. `authenticatedRequest` is the gateway for authenticated calls: it refuses to send a request without a token, and on HTTP 401 it forces a logout.
  * The model is the class `Auth.AuthServices`. Its fields are the two fields of the source, plus the store contents (`store`) and a log of everything observable the service has done (`effects`: progress calls, fetches and sleeps, in order).
  * Module `WakeUp` holds the specification of the wake-up loop: which probe counts as ready, and the exact effect sequence for a given list of probe outcomes. `WakeUpServer` is proved to produce exactly that sequence.
  * Module `AuthScenarios` states what a caller sees across several calls, for example save then get, logout then get, 401 then get, and login then get.
* **The response rules of the two `posts.js` files** (lpalsmegapro/api/posts.js and its copy api/posts.js). These cover:
  * how a response becomes a value or an error message: the parse is tried before the status check, and the message is `data?.message || text || "Error <status>"`;
  * list endpoints coercing any non-array to `[]`;
  * the lenient follow and unfollow reads;
  * the uncaught parse in `getUserInfo`;
  * the URLs the helpers build.

  Modules `ResponseRules`, `MegaproPosts` and `Posts` model these; module `Http` holds the request, the response and the URL builders; module `Decimal` holds the decimal text of numbers in template literals.
* **The sign-up checks** (Screens/SignUp.js): the `validEmail` regular expression and the ordered checks at the top of `handleSignUp`. Module `SignUpForm` models them.

Calls the model cannot see are parameters:

| What the source calls | What the model takes instead |
|---|---|
| `JSON.parse` | an oracle `string -> Option<Json>` |
| `JSON.stringify` | an oracle `Json -> string` |
| each `fetch` | a `Response` (status and body text). A health probe is an `Option<Response>`, where `None` is a rejected or aborted fetch. |
| each secure-store call | a `bool` that says whether the call fails |
| the progress callback | a flag saying whether one was given |

`WakeUpServer` takes a list of probe answers. The list must hold at least twelve, because the loop may ask for that many.

## Model

| member | source | states |
|---|---|---|
| Decimal.NatToString | lpalsmegapro/api/posts.js:5 | `${n}` of a non-negative integer is a non-empty digit string without a leading zero |
| Decimal.ParseNatToString | lpalsmegapro/api/posts.js:5 | reading back the decimal text of `n` gives `n` |
| Decimal.NatToStringInjective | lpalsmegapro/api/posts.js:5 | distinct numbers get distinct decimal texts |
| Http.StatusMessage | lpalsmegapro/api/posts.js:20 | `Error ${res.status}` is `Error ` followed by a non-empty run of decimal digits |
| Http.PageUrl | lpalsmegapro/api/posts.js:5 | the URL starts with the API root, the path and `?page=`, and ends with `&limit=` and the limit's digits |
| Http.StatusMessageRoundTrip | lpalsmegapro/api/posts.js:20 | `Error ${res.status}` is never empty and the status can be read back from it |
| Http.PageUrlRoundTrip | lpalsmegapro/api/posts.js:3-5 | the page and limit put into a `/posts?page=P&limit=L` style URL are read back unchanged |
| ResponseRules.TextOrStatusNonEmpty | lpalsmegapro/api/posts.js:20 | the last-resort message `text \|\| Error <status>` is never empty |
| ResponseRules.TextOrStatus | lpalsmegapro/api/posts.js:20 | the raw text when it is non-empty; otherwise a message from which the status reads back |
| ResponseRules.ReadText | lpalsmegapro/api/posts.js:15-24 | success iff the text parses and the status is OK, with the parsed value as result; a parse failure throws `text \|\| Error <status>` whatever the status; every failure throws `new Error(v)` with a truthy `v` |
| ResponseRules.ReadTextMessage | lpalsmegapro/api/posts.js:22-24 | the value a failure passes to `new Error` is the body's truthy `message`, else the non-empty text, else a text naming the status |
| ResponseRules.ReadList | lpalsmegapro/api/posts.js:25 | a successful list read is always an array: the parsed array, or `[]` for any other parsed value; failures are those of ReadText |
| ResponseRules.ReadLenient | lpalsmegapro/api/posts.js:87-98 | success iff the status is OK, whatever the body; the result is the parsed body or `null`; a failure throws `new Error(v)` with a truthy `v` |
| ResponseRules.ReadLenientIgnoresText | lpalsmegapro/api/posts.js:87-98 | the outcome depends only on the status and the parse outcome, never on the raw text |
| ResponseRules.ReadLenientMessage | lpalsmegapro/api/posts.js:94-96 | a failure passes `body?.message` to `new Error` when truthy, else a text naming the status |
| ResponseRules.ReadJson | lpalsmegapro/api/posts.js:134-140 | a parse failure escapes as a SyntaxError; success iff parsed and OK, with the parsed value |
| ResponseRules.ReadJsonMessage | lpalsmegapro/api/posts.js:136-138 | a failure on a parsed body passes `data?.message` to `new Error` when truthy, else a text naming the status |
| MegaproPosts.FetchPosts | lpalsmegapro/api/posts.js:3-26 | GET with the bearer headers and no body, on a URL whose page and limit read back as the arguments or the defaults 1 and 10; the outcome is ReadList, so a success is an array |
| MegaproPosts.CreatePost | lpalsmegapro/api/posts.js:28-51 | POST to `/posts` with the bearer headers and a body that is exactly the object `{content}`; a success is the parsed body unchanged |
| MegaproPosts.FetchFeed | lpalsmegapro/api/posts.js:53-76 | like FetchPosts on `/feed` |
| MegaproPosts.FollowUrl | lpalsmegapro/api/posts.js:79 | the URL is the API root, `/users/`, the id and `/follow`, with the id exactly in the middle |
| MegaproPosts.FollowUrlRoundTrip | lpalsmegapro/api/posts.js:79 | the user id can be read back out of `/users/<id>/follow` |
| MegaproPosts.FollowId | lpalsmegapro/api/posts.js:78-99 | PUT on the follow URL of exactly `id`, with no body; success iff the status is OK |
| MegaproPosts.UnfollowId | lpalsmegapro/api/posts.js:101-122 | DELETE on the follow URL of exactly `id`, with no body; success iff the status is OK |
| MegaproPosts.FollowUnfollowSameResource | lpalsmegapro/api/posts.js:78-122 | follow and unfollow use the same URL and headers and read responses alike, and differ in the method |
| MegaproPosts.GetUserInfo | lpalsmegapro/api/posts.js:125-141 | GET `/users/<id>`; the outcome is ReadJson, so a parse failure is not caught |
| Posts.FetchPosts | api/posts.js:3-26 | as MegaproPosts.FetchPosts |
| Posts.CreatePost | api/posts.js:28-51 | as MegaproPosts.CreatePost |
| Posts.SameAsMegapro | api/posts.js:3-51 | the two copies of fetchPosts and createPost send the same requests and read responses the same way |
| SignUpForm.ValidEmailCharacterised | Screens/SignUp.js:29-30 | the pattern matches iff there is no whitespace, exactly one `@` with a non-empty part before it, and a `.` strictly inside the part after it |
| SignUpForm.ValidEmail | Screens/SignUp.js:29-30 | an address the pattern accepts has at least five characters and contains both `@` and `.` |
| SignUpForm.Utf16LengthBounds | Screens/SignUp.js:42 | `password.length` (UTF-16 units) lies between the code-point count and twice it, and equals it inside the Basic Multilingual Plane |
| SignUpForm.CheckSignUp | Screens/SignUp.js:33-47 | submission iff all fields are non-empty, the email is valid and the password has at least 8 units; each rejection has its own message, and the order is empty fields, then email, then password; submission starts progress at 0 of 12 |
| SignUpForm.PasswordBoundary | Screens/SignUp.js:42-45 | with the other fields valid, 8 ordinary characters pass and 1 to 7 are rejected |
| WakeUp.StatusRequest | utils/Auth.js:18-22 | the health check is a GET on the status endpoint with the JSON content type and no body |
| WakeUp.ProbeReady | utils/Auth.js:25-31 | a probe is ready only when the fetch answered and its body parses to an object whose `status` is exactly "Server is running"; a rejected fetch is never ready |
| WakeUp.ReadinessAt | utils/Auth.js:13-36 | the readiness of probe `i` is exactly what checkServerStatus makes of its answer |
| WakeUp.FirstReady | utils/Auth.js:40-50 | the loop stops at the first ready probe: all earlier ones failed, it is ready, and it is at most the ceiling |
| WakeUp.WakeSucceedsIff | utils/Auth.js:40-52 | the wake-up succeeds iff one of the first twelve probes is ready |
| WakeUp.WakeTrace | utils/Auth.js:38-52 | the loop always does something: its trace is never empty |
| WakeUp.WakeTraceLast | utils/Auth.js:41-52 | a successful wake-up ends with the ready probe, with no sleep after it; a failed one ends with the sleep after the last probe |
| WakeUp.WakeSucceedsAfterFailures | utils/Auth.js:40-50 | for answers `false^k, true` with `k < 12`: success after exactly `k + 1` probes, progress numbered `1 .. k + 1`, and no sleep after the ready probe |
| WakeUp.WakeFailsAfterMaxAttempts | utils/Auth.js:40-52 | for twelve failures: exactly 12 probes, never a 13th, and as many progress calls as probes, numbered `1 .. 12`; the trace ends with a sleep |
| WakeUp.WakeTraceBounded | utils/Auth.js:38-52 | whatever the answers, between 1 and 12 probes, and every progress call reports 12 as its total |
| WakeUp.WakeTraceIsPrefix | utils/Auth.js:38-52 | every trace is a prefix of the all-fail trace: the loop never does anything the twelve-turn run would not |
| WakeUp.ProgressPrecedesEachProbe | utils/Auth.js:43-45 | with a callback, each probe comes straight after a progress call numbered one more than the probes before it |
| WakeUp.WakeTraceOnlyProbes | utils/Auth.js:18-22 | waking up sends no request other than the health check |
| WakeUp.FailedTurnsCounts | utils/Auth.js:40-50 | `k` failed turns make `k` probes, progress `1 .. k`, and end with a sleep |
| WakeUp.FailedTurnsPrefix | utils/Auth.js:40-50 | failed turns only grow: fewer turns are a prefix of more |
| Auth.FailureOf | utils/Auth.js:122-125 | a failed login or signUp response: SyntaxError iff the body does not parse; TypeError iff it is `null`; otherwise `new Error` gets the body's truthy `message`, else the default text |
| Auth.TokenText | utils/Auth.js:62-65 | the value saveToken can store is a string token, exactly when the value given is a string |
| Auth.CredentialOutcome | utils/Auth.js:113-154 | login and signUp succeed iff the response is OK, parses to a non-null body with a string token, and the token write succeeds; then the result is the parsed body; each other case gives its error |
| Auth.SavedSession | utils/Auth.js:127-129 | after a successful login the store holds the token, and the profile text unless that write failed; no other key changes |
| Auth.RequestOutcome | utils/Auth.js:190-199 | a non-401 response of the gateway: success iff OK and parsed, with the parsed body; a parse failure escapes; a non-OK one fails as FailureOf with "Error en la petición" |
| Auth.ResolvedToken | utils/Auth.js:172 | the token the gateway uses is the non-empty cached one, else the stored one, else none when the read fails |
| Auth.CachedAfterResolve | utils/Auth.js:72-82 | a cache miss caches whatever the store returned, `null` included; a hit or a failed read leaves the cache alone |
| Auth.GatewayRequest | utils/Auth.js:178-188 | the gateway request has the bearer header of the token, the caller's method and URL, and a body iff `body` is truthy |
| Auth.AuthServices.constructor | utils/Auth.js:7-10 | a new service is asleep and has nothing cached, with the store as persisted; the cache agrees with the store |
| Auth.AuthServices.CheckServerStatus | utils/Auth.js:13-36 | one probe; true iff ready; the flag is set only on true and otherwise left as it was; never fails; the cache keeps agreeing with the store |
| Auth.AuthServices.Attempt | utils/Auth.js:43-48 | one loop turn: progress (when a callback is given), the probe, and a sleep when it failed |
| Auth.AuthServices.WakeUpServer | utils/Auth.js:38-53 | the result is success iff WakeSucceeds, else the 60-second error; the effects are exactly WakeTrace; only the flag and the log change; the cache keeps agreeing with the store |
| Auth.AuthServices.EnsureServerIsAwake | utils/Auth.js:55-59 | when already awake: no probe, no progress call and no state change; otherwise the wake-up loop with its outcome; the cache keeps agreeing with the store |
| Auth.AuthServices.SaveToken | utils/Auth.js:62-70 | success iff the value is a string and the write succeeds; only then are the store and the cache updated; a failure leaves both unchanged; the cache keeps agreeing with the store |
| Auth.AuthServices.GetToken | utils/Auth.js:72-82 | returns ResolvedToken and leaves the cache as CachedAfterResolve; never fails and never writes the store; the cache keeps agreeing with the store |
| Auth.AuthServices.SaveUserData | utils/Auth.js:84-90 | writes the stringified profile under `userData`; a failed write is swallowed; the cache keeps agreeing with the store |
| Auth.AuthServices.GetUserData | utils/Auth.js:92-100 | `null` when the read fails, the key is missing or its text is empty; otherwise the parse of the text, or `null` when that fails |
| Auth.AuthServices.Logout | utils/Auth.js:156-167 | true iff both deletes succeed, and then both keys, the cache and the flag are cleared; a failed delete returns false with both fields kept and only the earlier deletes done; the cache keeps agreeing with the store unless the second delete alone fails, which leaves a cached token the store no longer has |
| Auth.AuthServices.PostCredentials | utils/Auth.js:113-154 | the shared login/signUp flow: the wake-up outcome, then the POST; the result is CredentialOutcome; on success the cache holds the token and the store is SavedSession; on failure neither changes; the cache keeps agreeing with the store |
| Auth.AuthServices.SignUp | utils/Auth.js:113-132 | PostCredentials with `/auth/signup`, body `{username, email, password}` and "Error en el registro"; the cache keeps agreeing with the store |
| Auth.AuthServices.Login | utils/Auth.js:135-154 | PostCredentials with `/auth/login`, body `{email, password}` and "Error en el inicio de sesión"; the cache keeps agreeing with the store |
| Auth.AuthServices.AuthenticatedRequest | utils/Auth.js:169-200 | wake-up failure, or no token, fails before any request of its own; otherwise it sends GatewayRequest; a 401 logs out and fails with "Sesión expirada"; other statuses give RequestOutcome; each path says which fields change; the cache keeps agreeing with the store except after a 401 whose forced logout fails on its second delete |
| AuthScenarios.ProbeOnce | utils/Auth.js:13-36 | checkServerStatus answers true iff the probe is ready, and the flag then equals the answer |
| AuthScenarios.SaveThenGetToken | utils/Auth.js:62-82 | a saved non-empty token is what getToken answers, even when the store read would fail; a failed save leaves getToken with the old stored token |
| AuthScenarios.SaveNonStringToken | utils/Auth.js:62-70 | a non-string token is refused and never cached |
| AuthScenarios.SaveThenGetProfile | utils/Auth.js:84-100 | the saved profile is read back when parse undoes stringify and neither store call fails; a failed read gives `null` |
| AuthScenarios.LogoutThenGetToken | utils/Auth.js:156-167 | after a successful logout, getToken finds no token |
| AuthScenarios.LogoutTwice | utils/Auth.js:156-167 | logout is idempotent: a second logout leaves the store as the first did, with only the two session keys removed |
| AuthScenarios.HalfLogout | utils/Auth.js:156-176 | when only the `userData` delete fails, logout returns false, the stored token is gone, and getToken and the gateway's token resolution still give the deleted token |
| AuthScenarios.EnsureTwice | utils/Auth.js:55-59 | after a successful wake-up, a second ensureServerIsAwake adds no effect |
| AuthScenarios.RequestWithoutToken | utils/Auth.js:169-176 | with no stored token the gateway fails with "No hay token de autenticación" (or the wake-up error), and only health checks are sent |
| AuthScenarios.ExpiredSession | utils/Auth.js:188-194 | a 401 fails with "Sesión expirada", after sending the stored token as bearer, and a later getToken finds nothing |
| AuthScenarios.LoginThenGetToken | utils/Auth.js:135-154 | a successful login's token is what a later getToken returns |
| AuthScenarios.LoginRejected | utils/Auth.js:144-147 | a rejected login fails with the server's message or the default, and changes neither the cache nor the store |

Behaviour of the code worth knowing:

* `checkServerStatus` does not look at `response.ok`. A non-2xx response whose body says `"Server is running"` counts as ready (`WakeUp.ProbeReady`).
* `login`, `signUp`, `authenticatedRequest` and `getUserInfo` call `response.json()` without a catch. A body that is not JSON escapes as a parse error (`SyntaxError` in the model). It is not turned into a message.
* `authenticatedRequest` never uses the raw body text as its message. Its fallback is "Error en la petición" (`Auth.RequestOutcome`).
* The forced logout after a 401 can fail: `logout` catches a failed store delete and returns false. The session then survives the 401 (`Auth.AuthServices.AuthenticatedRequest`, 401 case with a faulting delete).
* On a failed login or signUp, a body that parses to `null` makes `error.message` throw a TypeError before the default text is reached (`Auth.FailureOf`).
* `logout` deletes `userToken` before `userData`, and resets the cache only after both deletes. When only the second delete fails, the store has lost the token but the cache still holds it, so `getToken` and a later `authenticatedRequest` go on using the deleted token (`AuthScenarios.HalfLogout`). The same happens after a 401 whose forced logout fails that way. Every other operation keeps the cache in agreement with the store (`Auth.AuthServices.CacheAgrees`).

## Left out

* The network, the `AbortController` and its 10 s timer: replaced by one answer per fetch. A probe that times out or rejects is `None`. A rejected `fetch` in login, signUp, authenticatedRequest or the posts helpers is not modelled: every one of those calls gets a response.
* The 5 s pause: it is a `Sleep(5000)` entry in the effect log. There is no clock.
* `JSON.parse` and `JSON.stringify`: oracles passed as parameters. Their behaviour (for example that the parse of a stringify gives the value back) is assumed only where a statement says so in its hypothesis.
* expo-secure-store is an in-memory map. Each call may fail through a `bool` parameter. Values that are not strings are refused, as the store refuses them.
* ResponseRules.ReadText, ResponseRules.ReadLenient, ResponseRules.ReadJson, Auth.FailureOf: an error is `Thrown(v)`, with `v` the value passed to `new Error`. The `String(v)` conversion that the `Error` constructor applies is not modelled. What the model proves truthy is `v`, not the resulting `error.message`: a truthy non-string `message` in a response body, such as `[]`, gives an empty `error.message` in JavaScript.
* `console.error` calls: no observable effect in the model.
* Concurrency: two overlapping async calls (two wake-up loops at once, say) are not modelled. Each call runs to completion on its own.
* `getCurrentUserId` (utils/Auth.js:102-110) is not part of this model. It calls a `getUserId` method the class does not define, so it always ends in its catch and returns `null`.
* Auth.AuthServices.AuthenticatedRequest: the JavaScript defaults `method = 'GET'` and `body = null` are not modelled; the caller passes both.
* MegaproPosts.FetchPosts, MegaproPosts.FetchFeed, Posts.FetchPosts: page and limit are non-negative integers or absent. Other values, which the template literal would print with `String()`, are not modelled. Decimal.NatToString gives the exact decimal digits of any size, while JavaScript prints numbers of 10^21 and more in exponential form and cannot hold integers above 2^53 exactly.
* Auth.AuthServices.WakeUpServer: requires at least twelve probe answers, one for each turn the loop may take. Answers beyond the first ready one are never read.
* The screens' rendering, navigation and React state, and the `mountedRef` guards in Screens/SignUp.js, are not part of this model.
