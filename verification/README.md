# Session handling of auth-next-app, in Dafny

This project models the three pieces of sequential logic under the React and
axios plumbing of a Next.js client that keeps an access/refresh token pair
alive, and proves properties about each piece:

- **Permission evaluator** (`Permissions`, from `src/utils/validateUserPermissions.ts`).
  Permissions are all-of and roles are any-of, and each axis is only checked
  when the user holds at least one entry on it.
- **Server-side route guard** (`Guard`, from `src/utils/withSSRAuth.ts`).
  It checks that an access-token cookie is present, decodes the claims, runs
  the evaluator when the page states a requirement, and runs the page
  handler. If the handler fails with the invalid-token error, the guard ends
  the session.
- **Refresh coordinator** (`Coordinator`, from the response interceptor in
  `src/services/api.ts`). This is the single-flight `isRefreshing` flag with
  its FIFO queue of parked requests, the cookie jar and the default
  Authorization header. Every event is one atomic step of a pure transition
  function, because JavaScript runs each callback to completion. A refresh
  outcome is really two chained callbacks, `.then` or `.catch` and then
  `.finally`. Treating them as one step assumes no interceptor callback runs
  between them. That holds because responses arrive as separate tasks, while
  the two callbacks are back-to-back promise reactions.
  `CoordinatorProofs` holds the properties over event sequences:
  - single flight;
  - every parked request settled exactly once;
  - FIFO fan-out after a storm of expired-token failures. A storm is a burst
    of requests that all fail because the access token has expired.

`Session` holds the two cookie names, the 30-day max-age and the root path
used by every cookie write. It also holds the sign-out effect, which destroys
both cookies. `Options` is a small `Option` type that stands for JavaScript's
`undefined`.

Modelling choices:
- **Absent lists.** An absent list in the user's claims or in the requirement
  is `None`.
- **Undefined requirement list.** The evaluator dereferences the required
  permissions whenever the user holds a permission. It dereferences the
  required roles only when the user holds a role and the permissions axis has
  not already returned false. When such a read finds `undefined`, the
  evaluator throws. For the evaluator itself, "no read finds `undefined`" is
  the precondition `Evaluable`. The guard can be handed any token, so there
  the throw is an error path: the guard's promise rejects with
  `MissingRequirement`. A user who fails the permissions axis is redirected to
  `/dashboard` even when the page leaves out the roles.
- **Token decoding.** `jwt-decode` is an uninterpreted function
  `string -> Option<User>`. `None` means the decoder throws, and the guard
  rejects with `MalformedToken`.
- **Page handler.** The guard's page handler is an abstract outcome. It can
  return a result, throw the invalid-token error, or throw anything else. "The
  handler is never invoked" is stated as "the run is the same whatever the
  handler would do".
- **Browser or server.** `process.browser` is a boolean parameter of every
  coordinator step.
- **Effects.** The coordinator's effects are returned in the order the code
  performs them:
  - fulfil or reject the failing request's promise;
  - park a request;
  - reject a parked request, through its `onFailure`;
  - issue `POST /refresh`;
  - write a cookie, with its max-age and path;
  - replay a parked request with its rewritten config;
  - sign out.
- **Sign-out.** Sign-out removes both session cookies from the jar. In the
  browser, that jar is the one the interceptor reads.
- **Single flight.** Single flight is stated for a `World`: the coordinator
  plus the number of refresh calls issued but not yet settled. The
  environment delivers a refresh outcome only for a call that is in flight.
  The step function itself does not check the flag on settlement, and neither
  do the source's callbacks. A refresh call whose own failure is parked (see
  below) stays pending, so it stays counted as in flight.
- **Refresh failure.** `POST /refresh` goes through the same client, so its
  failure first passes through the interceptor (`src/services/api.ts:29-92`),
  exactly as a request's would. A refresh-failure event therefore carries the
  raw failure. Whatever the interceptor rejects it with is what `.catch` hands
  to every waiter.

Where the code's behaviour is surprising, the model follows the code:
- **Other handler failures.** A page handler failing with anything other than
  the invalid-token error is swallowed. The guard resolves to `undefined`
  (`src/utils/withSSRAuth.ts:52-65`). It does not propagate the failure.
- **Sign-out after a successful refresh.** In the browser, a successful
  refresh ends by calling `SignOut` (`src/services/api.ts:61-63`). That
  destroys the two cookies it has just written. The model keeps this:
  `RefreshSuccessFansOut` states that the browser jar ends up with no session
  cookies.
- **Refresh rejected with a 401.** If `POST /refresh` is rejected with a 401
  other than `token.expired`, the interceptor refuses it before `.catch` runs.
  During a server render, every waiter is therefore rejected with the
  invalid-token error, not with the refresh's failure. In the browser, the
  user is signed out first (`RefreshInvalidTokenByContext`).
- **Refresh rejected as expired.** If `POST /refresh` is itself rejected with
  `token.expired`, the interceptor parks it behind the flag the refresh still
  holds. `.catch` and `.finally` never run. The waiters stay pending, and the
  flag stays raised (`ExpiredRefreshParksItself`).

## Model

| member | source | states |
|---|---|---|
| Session.Clear | src/contexts/AuthContext.tsx:29-32 | signing out removes `nextauth.token` and `nextauth.refreshToken` and keeps every other cookie with its value |
| Session.ClearIdempotent | src/contexts/AuthContext.tsx:29-34 | signing out twice leaves the same jar as signing out once, and no session token remains |
| Permissions.EveryIncluded | src/utils/validateUserPermissions.ts:14-16 | the front-to-back `every`/`includes` scan is true exactly when every required entry is held |
| Permissions.SomeIncluded | src/utils/validateUserPermissions.ts:24-26 | the front-to-back `some`/`includes` scan is true exactly when some required entry is held |
| Permissions.ValidateUserPermissions | src/utils/validateUserPermissions.ts:12-34 | given that no requirement list the evaluator reads is undefined, the result is true exactly when both axes pass. The permissions axis is skipped or is a subset of the held permissions. The roles axis is skipped or shares a role with the held roles |
| Permissions.EmptyUserPasses | src/utils/validateUserPermissions.ts:13-33 | a user with no permissions and no roles is accepted for every requirement |
| Permissions.PermissionsAxisSkipped | src/utils/validateUserPermissions.ts:13-21 | when the user's permission list is absent or empty, replacing the required permissions, even by `undefined`, does not change the result |
| Permissions.RolesAxisSkipped | src/utils/validateUserPermissions.ts:23-31 | when the user's role list is absent or empty, replacing the required roles does not change the result |
| Permissions.MissingPermissionFails | src/utils/validateUserPermissions.ts:13-20 | a user holding some permission is rejected, without a throw and whatever the required roles are, when a required permission is not among theirs |
| Permissions.FailedPermissionsNeverReadRoles | src/utils/validateUserPermissions.ts:13-24 | when the permissions axis fails, an undefined required-roles list is never read: the evaluator returns false instead of throwing |
| Permissions.EmptyRequiredPermissionsPass | src/utils/validateUserPermissions.ts:14-20 | an empty required-permissions list passes the permissions axis, so the result is the roles axis alone |
| Permissions.EmptyRequiredRolesFail | src/utils/validateUserPermissions.ts:23-30 | an empty required-roles list rejects every user who holds a role |
| Permissions.OrderAndDuplicatesIrrelevant | src/utils/validateUserPermissions.ts:12-34 | lists naming the same entries, in any order and with any repetition, give the same result |
| Permissions.FewerPermissionsStillPass | src/utils/validateUserPermissions.ts:14-20 | replacing the required permissions by any list of them keeps an accepted user accepted |
| Permissions.MetricsExamples | src/pages/metrics.tsx:21-24 | for the metrics page's requirement, the results for an administrator with `metrics.list`, a user lacking it, a viewer, and users with empty or absent claims. A user failing the permissions axis is rejected even when the required roles are undefined |
| Guard.WithSSRAuth | src/utils/withSSRAuth.ts:17-66 | without a token, the run is a non-permanent redirect to `/` with the cookies untouched. A resolved value is the handler's own result. The cookies change only by the two session cookies being destroyed, and only when the handler threw the invalid-token error. A dashboard redirect needs options. A rejection needs a token and options |
| Guard.NoTokenShortCircuits | src/utils/withSSRAuth.ts:19-29 | with the token cookie missing or empty, the run is redirect `{"/", false}`, the same whatever the decoder and the handler would do |
| Guard.FailedPermissionsRedirectWithoutRoles | src/utils/withSSRAuth.ts:31-46 | a user holding permission `a` and role `r`, on a page requiring permission `b` with no roles given, is redirected to `/dashboard` with the cookies untouched, whatever the handler would do |
| Guard.InsufficientClaimsRedirect | src/utils/withSSRAuth.ts:31-46 | with options whose evaluation fails on the decoded claims, the run is redirect `{"/dashboard", false}` with the cookies untouched, the same whatever the handler would do |
| Guard.NoOptionsSkipsValidator | src/utils/withSSRAuth.ts:31-50 | without options and with a token, the decoder is never consulted. The run neither redirects to the dashboard nor rejects |
| Guard.HandlerResultPassesThroughIff | src/utils/withSSRAuth.ts:22-50 | a handler's result is passed through unchanged, with the cookies untouched, exactly when a token is present and there are no options or the decoded claims satisfy them |
| Guard.AuthTokenErrorEndsSession | src/utils/withSSRAuth.ts:52-62 | an admitted handler throwing the invalid-token error destroys both session cookies and redirects to `/`. Every run that changes the cookies is of that form |
| Guard.OtherErrorSwallowed | src/utils/withSSRAuth.ts:52-65 | an admitted handler throwing anything else makes the guard resolve to `undefined` with the cookies untouched |
| Guard.MetricsGuardScenarios | src/pages/metrics.tsx:12-25 | for the metrics page, an administrator reaches the handler, a viewer is redirected to `/dashboard`, and a request without cookies is redirected to `/` |
| Coordinator.Setup | src/services/api.ts:14-25 | the first client of a freshly loaded module is idle with an empty queue, and its default header is `"Bearer "` followed by the token cookie, or `"Bearer undefined"` without one |
| Coordinator.WithBearer | src/services/api.ts:74-75 | a replayed config keeps its identity and URL, and its Authorization header becomes `"Bearer " + token` |
| Coordinator.WithBearerKeepsOtherHeaders | src/services/api.ts:74-75 | rewriting the Authorization header leaves every other header present or absent, with the same value, as before |
| Coordinator.Replays | src/services/api.ts:58 | success fan-out has one replay per waiter, in queue order, each carrying the waiter's config with the new token. No refresh is issued |
| Coordinator.Rejections | src/services/api.ts:65 | failure fan-out has one `onFailure` rejection per waiter, in queue order, each with what reached `.catch`. No refresh is issued |
| Coordinator.OnFailure | src/services/api.ts:29-93 | the error interceptor issues a refresh exactly when it raises the flag, and leaves the queue as it was or with the failing request appended |
| Coordinator.OnRefreshSucceeded | src/services/api.ts:43-69 | a successful refresh issues no refresh, and leaves the flag lowered and the queue empty |
| Coordinator.OnRefreshFailed | src/services/api.ts:29-69 | a refresh failure that the interceptor refuses leaves the flag lowered and the queue empty. One with the expired-token code keeps the flag raised and parks the refresh call at the end of the queue. Either way, a refresh is issued only when the flag rises |
| Coordinator.Step | src/services/api.ts:27-93 | every step issues a refresh exactly when it raises the flag. It either drains the queue or keeps the old queue as a prefix |
| CoordinatorProofs.SuccessPassesThrough | src/services/api.ts:27-28 | a successful response is fulfilled unchanged and the state is untouched |
| CoordinatorProofs.OtherFailureRejectedUnchanged | src/services/api.ts:29-92 | a failure without a response or with a status other than 401 is rejected with the same error. Flag, queue, cookies and header are untouched |
| CoordinatorProofs.ExpiredWhileIdleStartsRefresh | src/services/api.ts:31-82 | an expired-token 401 while idle raises the flag. It issues exactly one refresh carrying the refresh-token cookie as read at that moment, then parks the request at the end of the queue |
| CoordinatorProofs.ExpiredWhileRefreshingJoinsQueue | src/services/api.ts:38-82 | an expired-token 401 while refreshing issues no refresh and only appends the request to the queue, pending |
| CoordinatorProofs.InvalidTokenByContext | src/services/api.ts:83-92 | any other 401 is handled by context. On the server, it is rejected with the invalid-token error and the state is unchanged. In the browser, the user is signed out, the cookies are destroyed, and the request is rejected with its own error |
| CoordinatorProofs.RefreshSuccessFansOut | src/services/api.ts:43-63 | refresh success writes both cookies with max-age 2592000 on `/` and sets the header to `"Bearer " + token`. It replays every waiter in queue order, empties the queue and lowers the flag. In the browser it then signs out, leaving the jar without session cookies |
| CoordinatorProofs.RefreshFailureRejectsAll | src/services/api.ts:64-69 | a refresh failure without a response or with a status other than 401 reaches `.catch` unchanged. Every waiter is rejected with it, in queue order. The queue empties and the flag lowers, and cookies and header are unchanged |
| CoordinatorProofs.RefreshInvalidTokenByContext | src/services/api.ts:64-92 | a refresh rejected with any other 401 rejects every waiter, in queue order, with the invalid-token error on the server. In the browser it signs out first, then rejects them with the refresh's own failure. Either way the queue empties and the flag lowers |
| CoordinatorProofs.ExpiredRefreshParksItself | src/services/api.ts:31-82 | a refresh rejected with `token.expired` while the flag is raised is parked at the end of the queue. It settles no waiter, keeps the flag raised and issues no new refresh |
| CoordinatorProofs.InitialWorldSingleFlight | src/services/api.ts:14-15 | the first client of a freshly loaded module is idle with nothing in flight and nothing queued |
| CoordinatorProofs.AdvancePreservesSingleFlight | src/services/api.ts:38-69 | one deliverable event keeps three facts true: at most one refresh is in flight, one is in flight exactly while the flag is raised, and a non-empty queue implies the flag. A refresh outcome only arrives while the flag is raised |
| CoordinatorProofs.SingleFlightThroughout | src/services/api.ts:38-69 | the single-flight invariant holds after every admissible sequence of events |
| CoordinatorProofs.FinalIsExec | src/services/api.ts:27-93 | the world's run ends in the same coordinator state as the plain run of the same events, so single flight and conservation speak about one run |
| CoordinatorProofs.StepConservesWaiters | src/services/api.ts:58-82 | in one step, the ids of the waiting requests followed by those newly parked equal the ids newly settled followed by those still waiting. No waiter is lost, duplicated or reordered |
| CoordinatorProofs.ExecConservesWaiters | src/services/api.ts:58-82 | the same ordered conservation holds over any sequence of events |
| CoordinatorProofs.EveryParkedRequestSettledOnce | src/services/api.ts:58-82 | from the first client of a freshly loaded module, once the queue is empty, the settled requests are exactly the parked requests, each once and in the order they were parked |
| CoordinatorProofs.StormQueuesInOrder | src/services/api.ts:31-82 | a storm of expired-token failures parks every request in arrival order and raises the flag. Cookies and header are unchanged |
| CoordinatorProofs.StormIssuesOneRefresh | src/services/api.ts:38-41 | a storm issues exactly one refresh when it starts idle, and none when a refresh is already in flight |
| CoordinatorProofs.StormThenRefreshSucceeded | src/services/api.ts:38-69 | N expired-token failures from idle, then refresh success, give one refresh in all, and the client ends idle with an empty queue and the new token in its header |
| CoordinatorProofs.StormThenRefreshReplaysInOrder | src/services/api.ts:43-77 | after a storm, refresh success writes both cookies (max-age 2592000, path `/`), then replays the waiting requests and the storm's requests in the order they failed, each with the new token, then signs out in the browser |
| CoordinatorProofs.StormThenRefreshFailed | src/services/api.ts:64-92 | after a storm, a refresh failure that the interceptor refuses rejects the waiting requests and the storm's requests in the order they failed. Each gets what the interceptor made of the failure, after a sign-out in the browser on a 401. It empties the queue and lowers the flag. The header is unchanged, and the cookies are cleared only by that sign-out. A refresh failing as expired instead joins the queue behind the storm, keeps the flag raised and settles nobody |

## Left out

- `AuthProvider` in `src/contexts/AuthContext.tsx` (the `/me` lookup on mount, `signIn`'s `POST /sessions` and its cookie writes, React state and navigation) is user-interface and network plumbing. `SignOut` appears only as the `SignOut` effect and `Session.Clear`.
- The page components of `src/pages/dashboard.tsx` and `src/pages/metrics.tsx` are view code. The metrics requirement is used only as test data.
- `src/errors/AuthTokenError` is not part of this model. The error is the `AuthTokenError` rejection and the `ThrowsAuthTokenError` handler outcome.
- The HTTP transport, the client's base URL, and the timing and completion order of replayed requests are left out. A replay is an emitted `Replay(config)` effect, not a network call.
- Several clients sharing the module-wide flag and queue are not modelled. The model has one client, whose cookie jar and default header live next to the shared state. `setupAPIClient` does not reset `isRefreshing` or `failedRequestsQueue` (`src/services/api.ts:14-25`). On the server every render creates a new client against the same module state, so a new client can start with the flag raised and with other renders' requests waiting. `Setup` and the properties that start from it describe only the first client of a freshly loaded module.
- Cookie parsing and serialisation are left out. The jar is a single string-to-string map that cookie writes update and reads see. On the server, `nookies` keeps request and response cookies apart, and that split is not modelled. Max-age and path appear only on `SetCookie` effects.
- Which error `jwt-decode` throws is left out. A decode failure is the single `MalformedToken` rejection.
- The model's environment may still deliver an outcome for a refresh call whose own failure was parked. The real call never settles. Single flight is proved for this larger set of runs.
- The `.catch` after `.then` would also catch an exception thrown inside the success handler, for example by a waiter's replay. That is not modelled.
- Environment sensing (`process.browser`) is a parameter of every step.
