/**
 * The API client's response interceptor and the refresh coordinator behind
 * it, as a sequential transition function.
 *
 * The interceptor's state is the module-wide `isRefreshing` flag and queue
 * of parked requests, together with the client's cookie jar and default
 * Authorization header. JavaScript runs each interceptor callback to
 * completion, so every event below is one atomic step: a response reaching
 * the interceptor, or the one outstanding POST /refresh settling. A
 * settlement is really two callbacks, `.then` or `.catch` and then
 * `.finally`; treating them as one step assumes no interceptor callback
 * runs in between, which holds because responses arrive as separate tasks
 * while the two callbacks are chained promise reactions. What a
 * step does to the outside world (settling a request's promise, issuing the
 * refresh, writing a cookie, replaying a request, signing out) is returned
 * as a sequence of effects, in the order the code performs them.
 *
 * `browser` says whether the code runs in the browser or during a
 * server-side render.
 */
module Coordinator {
  import opened Options
  import Session

  type RequestId = nat

  /** The parts of a request's config the interceptor reads or rewrites. */
  datatype RequestConfig = RequestConfig(id: RequestId, url: string, headers: map<string, string>)

  datatype Response = Response(config: RequestConfig, status: int)

  /** An error response: its status and the `code` field of its body, if any. */
  datatype ErrorResponse = ErrorResponse(status: int, code: Option<string>)

  /** A failed request: the response, when one arrived, and the config to replay. */
  datatype AxiosError = AxiosError(response: Option<ErrorResponse>, config: RequestConfig)

  datatype Event =
    | Responded(response: Response)                          // a request succeeded
    | Failed(error: AxiosError)                              // a request failed
    | RefreshSucceeded(token: string, refreshToken: string)  // POST /refresh answered with a new pair
    | RefreshFailed(error: AxiosError)                       // POST /refresh failed, seen by this interceptor first

  /** The reason a request's promise is rejected with. */
  datatype Rejection =
    | Original(error: AxiosError)  // a failure itself, unchanged
    | AuthTokenError               // the invalid-token error of a server-side render

  datatype Effect =
    | Fulfil(response: Response)                   // the request's promise resolves with the response
    | Reject(id: RequestId, reason: Rejection)     // the interceptor rejects the failing request
    | RejectParked(id: RequestId, reason: Rejection) // a parked request's `onFailure`: its promise rejects
    | Park(config: RequestConfig)                  // the request waits in the queue; its promise stays pending
    | IssueRefresh(refreshToken: Option<string>)   // POST /refresh is sent with this body field
    | SetCookie(name: string, value: string, maxAge: int, path: string)
    | Replay(config: RequestConfig)                // a parked request is resolved with a resend of `config`
    | SignOut                                      // both session cookies destroyed, navigation to "/"

  datatype State = State(refreshing: bool, queue: seq<RequestConfig>, cookies: Session.Jar, authorization: string)

  datatype Transition = Transition(next: State, effects: seq<Effect>)

  const Unauthorized: int := 401
  const ExpiredCode: string := "token.expired"

  /** How the interceptor classifies a failure. */
  datatype ErrorKind = NotUnauthorized | TokenExpired | TokenInvalid

  function Classify(error: AxiosError): ErrorKind {
    if error.response.None? || error.response.value.status != Unauthorized then NotUnauthorized
    else if error.response.value.code == Some(ExpiredCode) then TokenExpired
    else TokenInvalid
  }

  /**
   * The first client of a freshly loaded module: idle, nothing queued, and the
   * default header built from the access-token cookie (the text "undefined"
   * when there is none).
   */
  function Setup(cookies: Session.Jar): (s: State)
    ensures !s.refreshing && s.queue == [] && s.cookies == cookies
    ensures Session.TokenCookie in cookies ==> s.authorization == "Bearer " + cookies[Session.TokenCookie]
    ensures Session.TokenCookie !in cookies ==> s.authorization == "Bearer undefined"
  {
    State(false, [], cookies, Session.Bearer(Session.Interpolate(Session.Lookup(cookies, Session.TokenCookie))))
  }

  /** Number of refresh calls among the effects. */
  function RefreshCount(effects: seq<Effect>): nat {
    if effects == [] then 0
    else (if effects[0].IssueRefresh? then 1 else 0) + RefreshCount(effects[1..])
  }

  lemma {:induction false} RefreshCountAppend(a: seq<Effect>, b: seq<Effect>)
    ensures RefreshCount(a + b) == RefreshCount(a) + RefreshCount(b)
  {
    if a == [] {
      assert a + b == b;
    } else {
      assert (a + b)[1..] == a[1..] + b;
      RefreshCountAppend(a[1..], b);
    }
  }

  /** The config a parked request is replayed with: only its Authorization header changes. */
  function WithBearer(config: RequestConfig, token: string): (c: RequestConfig)
    ensures c.id == config.id && c.url == config.url
    ensures "Authorization" in c.headers && c.headers["Authorization"] == "Bearer " + token
  {
    config.(headers := config.headers["Authorization" := Session.Bearer(token)])
  }

  /** Rewriting the Authorization header leaves every other header of the config as it was. */
  lemma WithBearerKeepsOtherHeaders(config: RequestConfig, token: string)
    ensures var c := WithBearer(config, token);
      && (forall k :: k != "Authorization" ==> (k in c.headers <==> k in config.headers))
      && (forall k :: k in config.headers && k != "Authorization" ==> c.headers[k] == config.headers[k])
  {
  }

  /** Each waiter's `onSuccess`, called in queue order. */
  function Replays(waiters: seq<RequestConfig>, token: string): (r: seq<Effect>)
    ensures |r| == |waiters|
    ensures forall i :: 0 <= i < |waiters| ==> r[i] == Replay(WithBearer(waiters[i], token))
    ensures RefreshCount(r) == 0
  {
    if waiters == [] then []
    else [Replay(WithBearer(waiters[0], token))] + Replays(waiters[1..], token)
  }

  /** Each waiter's `onFailure`, called in queue order with what reached `.catch`. */
  function Rejections(waiters: seq<RequestConfig>, reason: Rejection): (r: seq<Effect>)
    ensures |r| == |waiters|
    ensures forall i :: 0 <= i < |waiters| ==> r[i] == RejectParked(waiters[i].id, reason)
    ensures RefreshCount(r) == 0
  {
    if waiters == [] then []
    else [RejectParked(waiters[0].id, reason)] + Rejections(waiters[1..], reason)
  }

  /**
   * How the interceptor gives up on a failure it does not retry: whether it
   * signs out first, and what it rejects with. A 401 other than an expired
   * token becomes the invalid-token error during a server render, and signs
   * out in the browser; anything else is rejected as it came.
   */
  datatype Refusal = Refusal(signsOut: bool, reason: Rejection)

  function Refuse(error: AxiosError, browser: bool): Refusal
    requires Classify(error) != TokenExpired
  {
    if Classify(error) == TokenInvalid && !browser then Refusal(false, AuthTokenError)
    else Refusal(Classify(error) == TokenInvalid, Original(error))
  }

  function SignOutIf(signsOut: bool): (r: seq<Effect>)
    ensures RefreshCount(r) == 0
  {
    if signsOut then [SignOut] else []
  }

  function JarAfter(jar: Session.Jar, signsOut: bool): Session.Jar {
    if signsOut then Session.Clear(jar) else jar
  }

  /** The error half of the interceptor. */
  function OnFailure(s: State, error: AxiosError, browser: bool): (t: Transition)
    ensures RefreshCount(t.effects) == (if !s.refreshing && t.next.refreshing then 1 else 0)
    ensures t.next.queue == s.queue || t.next.queue == s.queue + [error.config]
  {
    match Classify(error)
    case TokenExpired =>
      var body := Session.Lookup(s.cookies, Session.RefreshTokenCookie);
      var queued := s.queue + [error.config];
      if !s.refreshing then
        Transition(s.(refreshing := true, queue := queued), [IssueRefresh(body), Park(error.config)])
      else
        Transition(s.(queue := queued), [Park(error.config)])
    case NotUnauthorized | TokenInvalid =>
      var r := Refuse(error, browser);
      var rejection := [Reject(error.config.id, r.reason)];
      RefreshCountAppend(SignOutIf(r.signsOut), rejection);
      Transition(s.(cookies := JarAfter(s.cookies, r.signsOut)), SignOutIf(r.signsOut) + rejection)
  }

  /** The `.then` and `.finally` of a successful POST /refresh. */
  function OnRefreshSucceeded(s: State, token: string, refreshToken: string, browser: bool): (t: Transition)
    ensures RefreshCount(t.effects) == 0
    ensures !t.next.refreshing && t.next.queue == []
  {
    var written := s.cookies[Session.TokenCookie := token][Session.RefreshTokenCookie := refreshToken];
    var cookieWrites := [SetCookie(Session.TokenCookie, token, Session.MaxAge, Session.CookiePath),
                         SetCookie(Session.RefreshTokenCookie, refreshToken, Session.MaxAge, Session.CookiePath)];
    var signOut := if browser then [SignOut] else [];
    RefreshCountAppend(cookieWrites, Replays(s.queue, token));
    RefreshCountAppend(cookieWrites + Replays(s.queue, token), signOut);
    Transition(State(false, [], if browser then Session.Clear(written) else written, Session.Bearer(token)),
               cookieWrites + Replays(s.queue, token) + signOut)
  }

  /**
   * A failed POST /refresh. The call goes through this same client, so its
   * failure passes through the interceptor before `.catch` sees it. An
   * expired-token 401 is handled like any request's: it is parked behind the
   * flag the refresh itself holds, and `.catch` and `.finally` never run.
   * Any other failure is refused as a request's would be; `.catch` then
   * rejects every waiter with what the interceptor rejected, and `.finally`
   * lowers the flag.
   */
  function OnRefreshFailed(s: State, error: AxiosError, browser: bool): (t: Transition)
    ensures RefreshCount(t.effects) == (if !s.refreshing && t.next.refreshing then 1 else 0)
    ensures Classify(error) != TokenExpired ==> !t.next.refreshing && t.next.queue == []
    ensures Classify(error) == TokenExpired ==> t.next.refreshing && t.next.queue == s.queue + [error.config]
  {
    if Classify(error) == TokenExpired then
      OnFailure(s, error, browser)
    else
      var r := Refuse(error, browser);
      RefreshCountAppend(SignOutIf(r.signsOut), Rejections(s.queue, r.reason));
      Transition(State(false, [], JarAfter(s.cookies, r.signsOut), s.authorization),
                 SignOutIf(r.signsOut) + Rejections(s.queue, r.reason))
  }

  /**
   * One atomic step. A refresh call is issued exactly when the step raises
   * the flag, and the queue is either drained or extended at its end.
   */
  function Step(s: State, e: Event, browser: bool): (t: Transition)
    ensures RefreshCount(t.effects) == (if !s.refreshing && t.next.refreshing then 1 else 0)
    ensures t.next.queue == [] || s.queue <= t.next.queue
  {
    match e
    case Responded(response) => Transition(s, [Fulfil(response)])
    case Failed(error) => OnFailure(s, error, browser)
    case RefreshSucceeded(token, refreshToken) => OnRefreshSucceeded(s, token, refreshToken, browser)
    case RefreshFailed(error) => OnRefreshFailed(s, error, browser)
  }

  /** A sequence of events handled one after another, effects concatenated. */
  function Exec(s: State, events: seq<Event>, browser: bool): Transition
    decreases |events|
  {
    if events == [] then Transition(s, [])
    else
      var before := Exec(s, events[..|events| - 1], browser);
      var last := Step(before.next, events[|events| - 1], browser);
      Transition(last.next, before.effects + last.effects)
  }
}
