# NextAuth session and token-refresh model

A Dafny model of the authentication layer of a Next.js front-end: the API
client's response interceptor with its single-flight token refresh
(`src/services/api.ts`), and the session context's sign-in, sign-out and
mount-time restore (`src/contexts/AuthContext.tsx`).

The model is a sequential state machine. One immutable `Client` record holds
the interceptor's module-level `isRefreshing` flag and `failedRequestQueue`,
whether the refresh request is still unanswered, and a `World` shared with the
session context: the cookie store (a map from cookie name to value, `maxAge`
and path), the client's default `Authorization` header, the context's user,
and the navigations pushed so far. Events arrive one at a time, as on
JavaScript's single thread. A request's success or failure, the refresh
request's answer, the refresh promise's `finally`, the mount, and the answers
to the profile and sign-in requests are all events. Each transition returns
the new state and the effects it performed, in order: pass a response through,
reject the caller, issue a refresh with a given refresh token, replay or
reject a queued request, call `signOut`, fetch the profile.

Modules:

- `Options`: `Option` (absent = `undefined`) and `Result` (an awaited request's payload or error).
- `Cookies`: the two token cookies (`nextauth.token`, `nextauth.refreshToken`), thirty days (2592000 s) at path `/`, and the `Bearer ${token}` header text.
- `Http`: requests, responses, error responses with their `code`, and the replayed request.
- `Session`: `signOut`, `singIn` (spelled `SignIn` here), the restore on mount, `isAuthenticated`.
- `ApiClient`: client setup and one handler per interceptor branch and refresh callback.
- `Machine`: `Step` and `Run` over event lists, and the properties that span several events.

Behaviour the model reproduces as the code has it:

- `typeof window` is `"object"` in a browser and `"undefined"` on the server. Both are non-empty, so both are truthy. `signOut` is therefore called on every refresh failure and on every non-refreshable 401, and the branch returning `AuthTokenError` is never taken (`Machine.RunKeepsInvariant`). The `AuthTokenError` branch at `src/services/api.ts:82` was evidently meant for server-side rendering, but no environment reaches it.
- A missing token cookie gives the header `Bearer undefined`.
- In a browser `signOut` deletes the two cookies and navigates to `/`. It leaves the user and the client's default header as they were.
- During a server render `signOut` changes nothing and throws. `destroyCookie` without a request context deletes no cookie there, and `Router.push` throws because there is no router instance. So a non-refreshable 401 on the server rejects its caller with the router's error, not with the original error. A refresh failure on the server still rejects every queued request first, and then changes no cookie (`ApiClient.SignOutAt`). A direct `signOut()` call during a server render also changes nothing. The session context calls `signOut` only in a browser, because its effects and handlers run only there.
- A failed sign-in is swallowed. The outcome the session sees is the one the interceptor produced. If the sign-in request got a 401, the interceptor's own reaction (such as calling `signOut`) is a separate `Failed` event.

Orderings the model allows but the code cannot produce:

- Settling the refresh (the `then`/`catch` callback) and clearing the flag (the `finally` callback) are two separate events in the model, and events may come in any order. In the program both callbacks run in the same microtask drain once the refresh response arrives, and no other response is delivered in between. `Machine.ReleaseWindowLeavesEntryWaiting` shows what the extra order would do: an expired-token 401 between the two callbacks joins the queue while the flag is still set, so no refresh is issued for it, and after the release it waits with the flag cleared until a later expired-token 401 starts a new refresh (`Machine.WaitingEntryPickedUp`). For this reason the invariant the model proves is only "a refresh outstanding implies the flag set", not "a non-empty queue implies the flag set". The orders the program can produce are those in which every refresh answer is immediately followed by its release (`Machine.LoopOrder`). Under them the model proves the stronger invariant: the flag is set exactly while a refresh is outstanding, and a request waits only while a refresh is outstanding (`Machine.LoopRun`). That refresh's answer settles every waiting request (`Machine.LoopAnswerRelease`). So in the program every queued request is settled exactly once.

## Model

| member | source | states |
|---|---|---|
| Cookies.StoreTokens | src/contexts/AuthContext.tsx:64-72 | both token cookies hold the given tokens with maxAge 2592000 and path "/", read back as those tokens, and every other cookie is kept unchanged |
| Cookies.ClearTokens | src/contexts/AuthContext.tsx:28-29 | both token cookies are gone and every remaining cookie is unchanged |
| Cookies.Bearer | src/services/api.ts:17 | the header is "Bearer " followed by the token, or "Bearer undefined" when the cookie is missing |
| Cookies.ClearAfterStore | src/contexts/AuthContext.tsx:27-29 | clearing after storing tokens gives the same store as clearing alone: sign-out undoes sign-in on the cookie store |
| Http.WithBearer | src/services/api.ts:68-71 | a replayed request keeps its identity and URL and carries Authorization "Bearer " + token |
| Session.SignOut | src/contexts/AuthContext.tsx:27-32 | both token cookies are removed, every other cookie is kept, "/" is pushed, and user and header are untouched |
| Session.SignIn | src/contexts/AuthContext.tsx:56-85 | on success: both cookies hold the response tokens (maxAge 2592000, path "/"), the user is {credentials' email, response permissions, response roles}, the header is "Bearer " + token, "/dashboard" is pushed, every other cookie is kept unchanged; on failure nothing changes |
| Session.ShouldFetchProfile | src/contexts/AuthContext.tsx:41-44 | the profile is fetched exactly when the token cookie is present and non-empty |
| Session.OnProfile | src/contexts/AuthContext.tsx:44-52 | a profile answer sets the user to {email, permissions, roles} and changes nothing else; a failure is exactly signOut: both token cookies go, every other cookie stays, "/" is pushed |
| Session.RestoreOutcome | src/contexts/AuthContext.tsx:41-52 | after a successful restore the user is authenticated and a later mount fetches the profile again; after a failed one a later mount fetches nothing and authentication is as before |
| Session.SignInRoundTrip | src/contexts/AuthContext.tsx:64-78 | after sign-in the cookies read back as the response tokens, and the header equals the one derived from the stored token cookie |
| Session.AuthenticationTransitions | src/contexts/AuthContext.tsx:37-38 | `isAuthenticated` (`Session.IsAuthenticated`, `!!user`) becomes true on sign-in success, is unchanged by a failed sign-in, and is unchanged by sign-out |
| Session.SignOutTwice | src/contexts/AuthContext.tsx:27-32 | a second sign-out removes nothing more; it only pushes "/" again |
| ApiClient.Classify | src/services/api.ts:24-25 | a failure is refreshable exactly when it has a response with status 401 and code "token.expired", and is not a 401 exactly when it has no response or another status |
| ApiClient.Setup | src/services/api.ts:8-18 | the first client after the module loads starts idle (module-level flag cleared, queue empty), and its header is "Bearer " + the token cookie read at setup, or "Bearer undefined" |
| ApiClient.SetupShared | src/services/api.ts:8-18 | a later client gets its own header from the cookies it is given, inherits the module-level flag, outstanding refresh and queue unchanged, and leaves the session context's user and navigations alone |
| ApiClient.SetupFromIdle | src/services/api.ts:8-18 | building a client while the module state is idle gives the first client, except that the session context's user and navigations are kept |
| ApiClient.OnFulfilled | src/services/api.ts:22 | a successful response is passed through and no state changes |
| ApiClient.OnExpired | src/services/api.ts:25-77 | the failing request is appended to the queue; if the flag was clear a refresh is issued with the refresh token read from the cookies at that moment and the flag set, otherwise nothing is issued; the shared state is untouched |
| ApiClient.SignOutAt | src/contexts/AuthContext.tsx:27-32 | signOut as its environment performs it: in a browser exactly `Session.SignOut`; during a server render no change at all |
| ApiClient.OnOtherUnauthorized | src/services/api.ts:78-87 | any other 401 calls signOut in both environments (the typed-error branch is dead). In a browser it signs out and rejects the caller with the original error. On the server nothing changes and the caller is rejected with the router's error |
| ApiClient.OnRejected | src/services/api.ts:23-87 | a non-401 failure is rejected unchanged with no state change; an expired-token 401 queues and refreshes as above; any other 401 calls signOut, then rejects with the original error in a browser or the router's error on the server; the typed auth error never appears |
| ApiClient.ResolveAll | src/services/api.ts:51 | one replay per queued request, in queue order, each with the same new token |
| ApiClient.RejectAll | src/services/api.ts:55 | one rejection per queued request, in queue order, each with the refresh error |
| ApiClient.SettledDrain | src/services/api.ts:51-56 | resolving or rejecting the queue settles exactly the queued requests, each once, in order |
| ApiClient.OnRefreshSucceeded | src/services/api.ts:36-53 | both cookies and the header take the new tokens, every queued request is replayed with the new token in order, the queue is emptied, and the flag stays set until release |
| ApiClient.OnRefreshFailed | src/services/api.ts:54-61 | every queued request is rejected with the refresh error in order, then signOut is called. It signs out in a browser and changes nothing on the server. The queue is emptied and the flag stays set until release |
| ApiClient.OnRelease | src/services/api.ts:62-64 | the flag is cleared and nothing else changes |
| Machine.FailedKeeps | src/services/api.ts:23-87 | a request failure of any kind keeps the step facts: at most one refresh, issued exactly when an expired-token 401 finds the flag clear; the failing request is queued only for an expired token; the typed error never appears |
| Machine.RefreshSucceededKeeps | src/services/api.ts:36-53 | the refresh answer issues no refresh and settles exactly the queue, in order, leaving it empty |
| Machine.RefreshFailedKeeps | src/services/api.ts:54-61 | the refresh failure issues no refresh and settles exactly the queue, in order, before signOut |
| Machine.StepFacts | src/services/api.ts:21-89 | for every event dispatched by `Machine.Step` (refresh answers accepted only while a refresh is outstanding, release only after it was answered, a direct signOut as its environment performs it), the step keeps "refresh outstanding implies flag set"; a refresh is issued exactly when an expired-token 401 finds the flag clear, and then none was outstanding; the queue before plus what the event enqueues equals what it settles followed by the queue after |
| Machine.RunKeepsInvariant | src/services/api.ts:78-84 | over any sequence of events the invariant is kept and no caller is ever rejected with AuthTokenError |
| Machine.EntriesSettledOnce | src/services/api.ts:51-77 | over any sequence of events, the requests queued before plus those enqueued equal those settled, in order, followed by those still waiting: each queued request is settled at most once, in arrival order (that each is settled at all holds under the event loop's orders, below) |
| Machine.LoopStep | src/services/api.ts:21-89 | every event other than a refresh answer keeps the event loop's invariant: the flag is set exactly while a refresh is outstanding, and a request waits only while a refresh is outstanding |
| Machine.LoopAnswerRelease | src/services/api.ts:36-64 | a refresh answer settles every waiting request, in order, and leaves the queue empty; with its release it keeps the event loop's invariant |
| Machine.LoopRun | src/services/api.ts:31-64 | over any event order in which each refresh answer is immediately followed by its release, the event loop's invariant holds after the run, so no request waits without a refresh outstanding |
| Machine.RefreshesBoundedByReleases | src/services/api.ts:31-64 | over any sequence of events, refreshes issued are at most one more than the release events among them (none more if a refresh is already flagged); release events that find no settled refresh are counted too |
| Machine.RefreshNeedsExpiry | src/services/api.ts:25-34 | without an expired-token 401 among the events no refresh is ever issued |
| Machine.JoinWhileRefreshing | src/services/api.ts:31-77 | while the flag is set, expired-token 401s only join the queue in arrival order and issue nothing |
| Machine.ExpiredBurst | src/services/api.ts:25-77 | N expired-token 401s reaching an idle client issue exactly one refresh with the stored refresh token and queue all N requests in order |
| Machine.BurstRefreshSucceeds | src/services/api.ts:34-64 | after that burst, refresh success and release replay all N requests once with the same token, store the tokens, set the header, and leave the client idle |
| Machine.BurstRefreshFails | src/services/api.ts:54-64 | after that burst, refresh failure and release reject all N requests with the refresh error, then call signOut (a sign-out in a browser, no change on the server), and leave the client idle |
| Machine.ReleaseWindowLeavesEntryWaiting | src/services/api.ts:51-67 | in an event order the model allows but the event loop does not produce, an expired-token 401 arriving between settle and release is neither replayed nor rejected and stays queued with the flag cleared |
| Machine.WaitingEntryPickedUp | src/services/api.ts:31-77 | the next expired-token 401 then issues a refresh and queues behind the waiting request |
| Machine.SetupAfterSignIn | src/services/api.ts:12-18 | a client built after sign-in, whatever module state it inherits, derives the same header from the cookies as the one the sign-in set |
| Machine.SetupAfterRefresh | src/services/api.ts:36-49 | after a refresh, a client built from the cookies sends the refreshed token, which is also the current header, and until the release it inherits the flag still set |
| Machine.MountFetchesProfile | src/contexts/AuthContext.tsx:41-44 | mounting changes no state and fetches the profile exactly when the token cookie is present and non-empty, and otherwise does nothing |

## Left out

- The permission and role guard (`withSSRAuth`, `Can`, `useCan`): its source is not part of this model.
- Page components and server-side-render glue (`src/pages/dashboard.tsx`, `src/pages/metrics.tsx`).
- axios, nookies and the Next.js router are replaced by the cookie map, the header field and the recorded navigations. The client's base URL is not modelled.
- Promise and microtask scheduling and network timing: every callback is one atomic event, and the events may come in any order. This includes orders the event loop excludes, such as a response arriving between a refresh's `then`/`catch` and its `finally`. So the model admits more runs than the program, and every property proved over all event orders holds a fortiori.
- Matching answers to requests: a `Fulfilled` or `Failed` event, a profile answer and a sign-in answer are accepted in any state. Only the refresh answer and the release are tied to an outstanding refresh; in any other state they change nothing.
- The refresh POST passing through its own interceptor: its outcome is an external event. A 401 with code `token.expired` on the refresh request would queue it behind itself; that case is not modelled.
- The replayed request's own outcome: a replay is an effect, and its result comes back later as an ordinary event.
- Several clients at once: the server builds one client per request and they all share the module-level flag and queue. `ApiClient.SetupShared` states what a later client inherits, but `Machine.Step` runs one client, so interleaving the events of two live clients is not modelled.
- The libraries' server-side behaviour is taken from their documented behaviour, not modelled from source: `destroyCookie` without a context deletes nothing outside the browser, and `Router.push` throws without a router instance. The thrown error is the single value `NoRouterInstance`.
- Browser and server cookie stores: one cookie map stands for both. Cookie expiry is not modelled; `maxAge` is only recorded.
- ApiClient.OnExpired, ApiClient.OnRefreshSucceeded and Machine.SetupAfterRefresh do not model the server's read-after-write. During a server render `setCookie(ctx, …)` only adds a `Set-Cookie` header to the response, and `parseCookies(ctx)` keeps reading the request's `Cookie` header. So after a server-side refresh, a later expired-token 401 still re-reads the old refresh token, and a later `setupAPIClient(ctx)` for the same request still sends the old access token. The model has one cookie map, so a `Server` client reads back the tokens it wrote. For the browser, which has one store, the model is exact.
- Response bodies missing fields (for example an `undefined` token): the refresh, sign-in and profile answers are modelled as carrying all their fields.
- `console.log` of a swallowed sign-in error, and React rendering and hooks.
