/**
 * Properties of the refresh coordinator: what each kind of event does,
 * single-flight refresh over any admissible run, exactly-once settlement of
 * parked requests, and FIFO fan-out after a storm of expired-token failures.
 */
module CoordinatorProofs {
  import opened Options
  import Session
  import opened Coordinator

  // ---------------------------------------------------------------------
  // One event at a time

  /** A successful response passes through unchanged and touches nothing. */
  lemma SuccessPassesThrough(s: State, response: Response, browser: bool)
    ensures Step(s, Responded(response), browser) == Transition(s, [Fulfil(response)])
  {
  }

  /** A failure that is not a 401 is rejected as it came, and the state is untouched. */
  lemma OtherFailureRejectedUnchanged(s: State, error: AxiosError, browser: bool)
    requires error.response.None? || error.response.value.status != 401
    ensures Step(s, Failed(error), browser) == Transition(s, [Reject(error.config.id, Original(error))])
  {
  }

  /**
   * An expired token seen while idle raises the flag, sends exactly one
   * refresh carrying the refresh-token cookie as it is now, and parks the
   * request at the end of the queue.
   */
  lemma ExpiredWhileIdleStartsRefresh(s: State, error: AxiosError, browser: bool)
    requires !s.refreshing
    requires error.response == Some(ErrorResponse(401, Some("token.expired")))
    ensures var t := Step(s, Failed(error), browser);
      && t.next == s.(refreshing := true, queue := s.queue + [error.config])
      && t.effects == [IssueRefresh(Session.Lookup(s.cookies, "nextauth.refreshToken")), Park(error.config)]
  {
  }

  /** An expired token seen while a refresh is in flight only joins the end of the queue. */
  lemma ExpiredWhileRefreshingJoinsQueue(s: State, error: AxiosError, browser: bool)
    requires s.refreshing
    requires error.response == Some(ErrorResponse(401, Some("token.expired")))
    ensures var t := Step(s, Failed(error), browser);
      && t.next == s.(queue := s.queue + [error.config])
      && t.effects == [Park(error.config)]
  {
  }

  /**
   * Any other 401: during a server render the request is rejected with the
   * invalid-token error; in the browser the user is signed out and the
   * request is rejected with its own failure.
   */
  lemma InvalidTokenByContext(s: State, error: AxiosError, browser: bool)
    requires error.response.Some? && error.response.value.status == 401
    requires error.response.value.code != Some("token.expired")
    ensures !browser ==> Step(s, Failed(error), browser) == Transition(s, [Reject(error.config.id, AuthTokenError)])
    ensures browser ==>
      Step(s, Failed(error), browser)
        == Transition(s.(cookies := Session.Clear(s.cookies)), [SignOut, Reject(error.config.id, Original(error))])
  {
  }

  /**
   * A successful refresh writes both cookies for 30 days on "/", points the
   * default header at the new token, replays every parked request in queue
   * order with the new token, empties the queue and lowers the flag. In the
   * browser it then signs out, which destroys the cookies it just wrote.
   */
  lemma RefreshSuccessFansOut(s: State, token: string, refreshToken: string, browser: bool)
    ensures var t := Step(s, RefreshSucceeded(token, refreshToken), browser);
      && !t.next.refreshing && t.next.queue == []
      && t.next.authorization == "Bearer " + token
      && |t.effects| == 2 + |s.queue| + (if browser then 1 else 0)
      && t.effects[0] == SetCookie("nextauth.token", token, 2592000, "/")
      && t.effects[1] == SetCookie("nextauth.refreshToken", refreshToken, 2592000, "/")
      && (forall i :: 0 <= i < |s.queue| ==> t.effects[2 + i] == Replay(WithBearer(s.queue[i], token)))
      && (browser ==> t.effects[|t.effects| - 1] == SignOut && t.next.cookies == Session.Clear(s.cookies))
      && (!browser ==> t.next.cookies == s.cookies["nextauth.token" := token]["nextauth.refreshToken" := refreshToken])
  {
    var t := Step(s, RefreshSucceeded(token, refreshToken), browser);
    assert t == OnRefreshSucceeded(s, token, refreshToken, browser);
    var writes := [SetCookie(Session.TokenCookie, token, Session.MaxAge, Session.CookiePath),
                   SetCookie(Session.RefreshTokenCookie, refreshToken, Session.MaxAge, Session.CookiePath)];
    var replays := Replays(s.queue, token);
    var signOut := if browser then [SignOut] else [];
    assert t.effects == (writes + replays) + signOut;
    assert |writes + replays| == 2 + |s.queue|;
    forall i | 0 <= i < |s.queue|
      ensures t.effects[2 + i] == Replay(WithBearer(s.queue[i], token))
    {
      assert t.effects[2 + i] == (writes + replays)[2 + i] == replays[i];
    }
    if browser {
      assert t.effects[|t.effects| - 1] == signOut[0];
    }
  }

  /**
   * A refresh that fails without a response or with a status other than 401
   * reaches `.catch` unchanged: every parked request is rejected with that
   * failure in queue order, the queue empties, the flag lowers, and cookies
   * and header stay as they were.
   */
  lemma RefreshFailureRejectsAll(s: State, error: AxiosError, browser: bool)
    requires error.response.None? || error.response.value.status != 401
    ensures var t := Step(s, RefreshFailed(error), browser);
      && t.next == State(false, [], s.cookies, s.authorization)
      && |t.effects| == |s.queue|
      && forall i :: 0 <= i < |s.queue| ==> t.effects[i] == RejectParked(s.queue[i].id, Original(error))
  {
  }

  /**
   * A refresh rejected with any other 401 is refused by the interceptor
   * before `.catch` sees it. During a server render every parked request is
   * therefore rejected with the invalid-token error, the one the route guard
   * recognises. In the browser the user is signed out first and the parked
   * requests are rejected with the refresh's own failure.
   */
  lemma RefreshInvalidTokenByContext(s: State, error: AxiosError, browser: bool)
    requires error.response.Some? && error.response.value.status == 401
    requires error.response.value.code != Some("token.expired")
    ensures var t := Step(s, RefreshFailed(error), browser);
      && !t.next.refreshing && t.next.queue == [] && t.next.authorization == s.authorization
      && (!browser ==> t.next.cookies == s.cookies && t.effects == Rejections(s.queue, AuthTokenError))
      && (browser ==> t.next.cookies == Session.Clear(s.cookies)
                      && t.effects == [SignOut] + Rejections(s.queue, Original(error)))
  {
  }

  /**
   * A refresh rejected because its own token expired is parked like any
   * request, behind the flag the refresh itself holds: no waiter is
   * settled, the flag stays raised, and no second refresh is sent.
   */
  lemma ExpiredRefreshParksItself(s: State, error: AxiosError, browser: bool)
    requires s.refreshing
    requires error.response == Some(ErrorResponse(401, Some("token.expired")))
    ensures Step(s, RefreshFailed(error), browser)
         == Transition(s.(queue := s.queue + [error.config]), [Park(error.config)])
  {
  }

  // ---------------------------------------------------------------------
  // Single flight

  /**
   * The coordinator together with the number of refresh calls issued and
   * not yet settled. The environment only delivers the outcome of a call
   * that is in flight. A refresh whose own failure is parked stays pending,
   * so it stays counted.
   */
  datatype World = World(client: State, inFlight: nat)

  /** The outcome of a refresh call. */
  predicate IsSettlement(e: Event) {
    e.RefreshSucceeded? || e.RefreshFailed?
  }

  /** An outcome that reaches `.then` or `.catch`, ending the call. */
  predicate EndsRefresh(e: Event) {
    e.RefreshSucceeded? || (e.RefreshFailed? && Classify(e.error) != TokenExpired)
  }

  predicate Deliverable(w: World, e: Event) {
    IsSettlement(e) ==> w.inFlight > 0
  }

  function Advance(w: World, e: Event, browser: bool): World
    requires Deliverable(w, e)
  {
    var t := Step(w.client, e, browser);
    World(t.next, w.inFlight - (if EndsRefresh(e) then 1 else 0) + RefreshCount(t.effects))
  }

  /** Events the environment can deliver one after another from `w`. */
  predicate Admissible(w: World, events: seq<Event>, browser: bool)
    decreases |events|
  {
    events == [] || (Deliverable(w, events[0]) && Admissible(Advance(w, events[0], browser), events[1..], browser))
  }

  function Final(w: World, events: seq<Event>, browser: bool): World
    requires Admissible(w, events, browser)
    decreases |events|
  {
    if events == [] then w else Final(Advance(w, events[0], browser), events[1..], browser)
  }

  /** The world's run is the coordinator's run: counting refreshes in flight changes nothing else. */
  lemma {:induction false} FinalIsExec(w: World, events: seq<Event>, browser: bool)
    requires Admissible(w, events, browser)
    ensures Final(w, events, browser).client == Exec(w.client, events, browser).next
    decreases |events|
  {
    if events != [] {
      var w1 := Advance(w, events[0], browser);
      FinalIsExec(w1, events[1..], browser);
      ExecFront(w.client, events, browser);
    }
  }

  /**
   * At most one refresh is in flight, one is in flight exactly while the
   * flag is raised, and requests only wait while the flag is raised.
   */
  predicate SingleFlight(w: World) {
    && w.inFlight <= 1
    && (w.inFlight == 1 <==> w.client.refreshing)
    && (w.client.queue != [] ==> w.client.refreshing)
  }

  lemma InitialWorldSingleFlight(cookies: Session.Jar)
    ensures SingleFlight(World(Setup(cookies), 0))
  {
  }

  lemma AdvancePreservesSingleFlight(w: World, e: Event, browser: bool)
    requires SingleFlight(w) && Deliverable(w, e)
    ensures SingleFlight(Advance(w, e, browser))
    ensures IsSettlement(e) ==> w.client.refreshing
  {
  }

  /** Single flight holds after every admissible run, whatever the interleaving of events. */
  lemma {:induction false} SingleFlightThroughout(w: World, events: seq<Event>, browser: bool)
    requires SingleFlight(w) && Admissible(w, events, browser)
    ensures SingleFlight(Final(w, events, browser))
    decreases |events|
  {
    if events != [] {
      AdvancePreservesSingleFlight(w, events[0], browser);
      SingleFlightThroughout(Advance(w, events[0], browser), events[1..], browser);
    }
  }

  // ---------------------------------------------------------------------
  // Exactly-once settlement, in order

  /** The request an effect parks, if any. */
  function ParkedBy(e: Effect): seq<RequestId> {
    if e.Park? then [e.config.id] else []
  }

  /** The parked request an effect settles, if any: replayed, or rejected by `.catch`. */
  function SettledBy(e: Effect): seq<RequestId> {
    if e.Replay? then [e.config.id]
    else if e.RejectParked? then [e.id]
    else []
  }

  /** Identifiers of the requests these effects park, in order. */
  function Parked(effects: seq<Effect>): seq<RequestId> {
    if effects == [] then [] else ParkedBy(effects[0]) + Parked(effects[1..])
  }

  /** Identifiers of the parked requests these effects settle, in order. */
  function Settled(effects: seq<Effect>): seq<RequestId> {
    if effects == [] then [] else SettledBy(effects[0]) + Settled(effects[1..])
  }

  function Ids(queue: seq<RequestConfig>): (r: seq<RequestId>)
    ensures |r| == |queue| && forall i :: 0 <= i < |queue| ==> r[i] == queue[i].id
  {
    if queue == [] then [] else [queue[0].id] + Ids(queue[1..])
  }

  lemma {:induction false} ParkedAppend(a: seq<Effect>, b: seq<Effect>)
    ensures Parked(a + b) == Parked(a) + Parked(b)
  {
    if a == [] {
      assert a + b == b;
    } else {
      var h := ParkedBy(a[0]);
      assert (a + b)[0] == a[0];
      assert (a + b)[1..] == a[1..] + b;
      assert Parked(a + b) == h + Parked(a[1..] + b);
      ParkedAppend(a[1..], b);
      assert h + (Parked(a[1..]) + Parked(b)) == (h + Parked(a[1..])) + Parked(b);
    }
  }

  lemma {:induction false} SettledAppend(a: seq<Effect>, b: seq<Effect>)
    ensures Settled(a + b) == Settled(a) + Settled(b)
  {
    if a == [] {
      assert a + b == b;
    } else {
      var h := SettledBy(a[0]);
      assert (a + b)[0] == a[0];
      assert (a + b)[1..] == a[1..] + b;
      assert Settled(a + b) == h + Settled(a[1..] + b);
      SettledAppend(a[1..], b);
      assert h + (Settled(a[1..]) + Settled(b)) == (h + Settled(a[1..])) + Settled(b);
    }
  }

  lemma ParkedSettledAppend(a: seq<Effect>, b: seq<Effect>)
    ensures Parked(a + b) == Parked(a) + Parked(b)
    ensures Settled(a + b) == Settled(a) + Settled(b)
  {
    ParkedAppend(a, b);
    SettledAppend(a, b);
  }

  lemma SingleEffect(e: Effect)
    ensures Parked([e]) == ParkedBy(e) && Settled([e]) == SettledBy(e)
  {
    assert [e][1..] == [];
  }

  lemma PairOfEffects(a: Effect, b: Effect)
    ensures Parked([a, b]) == Parked([a]) + Parked([b])
    ensures Settled([a, b]) == Settled([a]) + Settled([b])
  {
    assert [a, b] == [a] + [b];
    ParkedSettledAppend([a], [b]);
  }

  /** Replaying the queue settles each waiter once, in queue order, and parks nothing. */
  lemma {:induction false} ReplaysSettleQueue(queue: seq<RequestConfig>, token: string)
    ensures Settled(Replays(queue, token)) == Ids(queue)
    ensures Parked(Replays(queue, token)) == []
  {
    if queue != [] {
      var r := Replays(queue, token);
      assert r[1..] == Replays(queue[1..], token);
      ReplaysSettleQueue(queue[1..], token);
    }
  }

  /** Rejecting the queue settles each waiter once, in queue order, and parks nothing. */
  lemma {:induction false} RejectionsSettleQueue(queue: seq<RequestConfig>, reason: Rejection)
    ensures Settled(Rejections(queue, reason)) == Ids(queue)
    ensures Parked(Rejections(queue, reason)) == []
  {
    if queue != [] {
      var r := Rejections(queue, reason);
      assert r[1..] == Rejections(queue[1..], reason);
      RejectionsSettleQueue(queue[1..], reason);
    }
  }

  /** Signing out neither parks nor settles a request. */
  lemma SignOutIfNoWaiters(signsOut: bool)
    ensures Parked(SignOutIf(signsOut)) == [] && Settled(SignOutIf(signsOut)) == []
  {
    if signsOut {
      SingleEffect(SignOut);
    }
  }

  lemma ParkingConservesWaiters(queue: seq<RequestConfig>, c: RequestConfig, lead: seq<Effect>)
    requires lead == [] || (|lead| == 1 && lead[0].IssueRefresh?)
    ensures Ids(queue) + Parked(lead + [Park(c)]) == Settled(lead + [Park(c)]) + Ids(queue + [c])
  {
    ParkedSettledAppend(lead, [Park(c)]);
    SingleEffect(Park(c));
    if lead != [] {
      SingleEffect(lead[0]);
      assert lead == [lead[0]];
    }
    assert Ids(queue + [c]) == Ids(queue) + [c.id];
  }

  lemma ExpiredConservesWaiters(s: State, error: AxiosError, browser: bool)
    requires Classify(error) == TokenExpired
    ensures var t := OnFailure(s, error, browser);
      Ids(s.queue) + Parked(t.effects) == Settled(t.effects) + Ids(t.next.queue)
  {
    var c := error.config;
    var lead := if s.refreshing then [] else [IssueRefresh(Session.Lookup(s.cookies, Session.RefreshTokenCookie))];
    assert OnFailure(s, error, browser).effects == lead + [Park(c)];
    ParkingConservesWaiters(s.queue, c, lead);
  }

  lemma RejectedRequestsNotWaiters(s: State, error: AxiosError, browser: bool)
    requires Classify(error) != TokenExpired
    ensures var t := OnFailure(s, error, browser);
      Parked(t.effects) == [] && Settled(t.effects) == [] && t.next.queue == s.queue
  {
    var r := Refuse(error, browser);
    var rejection := Reject(error.config.id, r.reason);
    assert OnFailure(s, error, browser).effects == SignOutIf(r.signsOut) + [rejection];
    SignOutIfNoWaiters(r.signsOut);
    SingleEffect(rejection);
    ParkedSettledAppend(SignOutIf(r.signsOut), [rejection]);
  }

  lemma RefreshFailedSettlesQueue(s: State, error: AxiosError, browser: bool)
    requires Classify(error) != TokenExpired
    ensures var t := OnRefreshFailed(s, error, browser);
      Parked(t.effects) == [] && Settled(t.effects) == Ids(s.queue)
  {
    var r := Refuse(error, browser);
    assert OnRefreshFailed(s, error, browser).effects == SignOutIf(r.signsOut) + Rejections(s.queue, r.reason);
    SignOutIfNoWaiters(r.signsOut);
    RejectionsSettleQueue(s.queue, r.reason);
    ParkedSettledAppend(SignOutIf(r.signsOut), Rejections(s.queue, r.reason));
  }

  lemma RefreshSucceededSettlesQueue(s: State, token: string, refreshToken: string, browser: bool)
    ensures var t := OnRefreshSucceeded(s, token, refreshToken, browser);
      Parked(t.effects) == [] && Settled(t.effects) == Ids(s.queue)
  {
    var writes := [SetCookie(Session.TokenCookie, token, Session.MaxAge, Session.CookiePath),
                   SetCookie(Session.RefreshTokenCookie, refreshToken, Session.MaxAge, Session.CookiePath)];
    var signOut := if browser then [SignOut] else [];
    PairOfEffects(writes[0], writes[1]);
    SingleEffect(writes[0]);
    SingleEffect(writes[1]);
    SingleEffect(SignOut);
    ParkedSettledAppend(writes, Replays(s.queue, token));
    ParkedSettledAppend(writes + Replays(s.queue, token), signOut);
    ReplaysSettleQueue(s.queue, token);
  }

  /**
   * A step moves waiters from "parked" to "settled" without losing,
   * duplicating or reordering any: the waiting requests followed by the newly
   * parked ones are the newly settled ones followed by those still waiting.
   */
  lemma StepConservesWaiters(s: State, e: Event, browser: bool)
    ensures var t := Step(s, e, browser);
      Ids(s.queue) + Parked(t.effects) == Settled(t.effects) + Ids(t.next.queue)
  {
    var t := Step(s, e, browser);
    match e
    case Responded(response) =>
      SingleEffect(Fulfil(response));
    case Failed(error) =>
      if Classify(error) == TokenExpired {
        ExpiredConservesWaiters(s, error, browser);
      } else {
        RejectedRequestsNotWaiters(s, error, browser);
      }
    case RefreshSucceeded(token, refreshToken) =>
      RefreshSucceededSettlesQueue(s, token, refreshToken, browser);
    case RefreshFailed(error) =>
      if Classify(error) == TokenExpired {
        assert t == OnFailure(s, error, browser);
        ExpiredConservesWaiters(s, error, browser);
      } else {
        RefreshFailedSettlesQueue(s, error, browser);
      }
  }

  /** Handling `events + [e]` is handling `events`, then `e`. */
  lemma ExecSnoc(s: State, events: seq<Event>, e: Event, browser: bool)
    ensures var before := Exec(s, events, browser);
      var last := Step(before.next, e, browser);
      Exec(s, events + [e], browser) == Transition(last.next, before.effects + last.effects)
  {
    assert (events + [e])[..|events|] == events;
  }

  /** Running a sequence of events is running its first event, then the rest. */
  lemma {:induction false} ExecFront(s: State, events: seq<Event>, browser: bool)
    requires events != []
    ensures Exec(s, events, browser).next == Exec(Step(s, events[0], browser).next, events[1..], browser).next
    decreases |events|
  {
    var s1 := Step(s, events[0], browser).next;
    if |events| == 1 {
      assert events[1..] == [];
      assert events == [] + [events[0]];
      ExecSnoc(s, [], events[0], browser);
    } else {
      var init := events[..|events| - 1];
      var last := events[|events| - 1];
      assert events == init + [last];
      assert events[1..] == init[1..] + [last];
      ExecFront(s, init, browser);
      ExecSnoc(s, init, last, browser);
      ExecSnoc(s1, init[1..], last, browser);
    }
  }

  lemma Chain<T>(i0: seq<T>, p1: seq<T>, p2: seq<T>, s1: seq<T>, s2: seq<T>, i1: seq<T>, i2: seq<T>)
    requires i0 + p1 == s1 + i1 && i1 + p2 == s2 + i2
    ensures i0 + (p1 + p2) == (s1 + s2) + i2
  {
    calc {
      i0 + (p1 + p2);
      (i0 + p1) + p2;
      (s1 + i1) + p2;
      s1 + (i1 + p2);
      s1 + (s2 + i2);
      (s1 + s2) + i2;
    }
  }

  /**
   * Over any run, the requests waiting at the start followed by every
   * request parked are exactly the requests settled followed by those still
   * waiting, in order.
   */
  lemma {:induction false} ExecConservesWaiters(s: State, events: seq<Event>, browser: bool)
    ensures var t := Exec(s, events, browser);
      Ids(s.queue) + Parked(t.effects) == Settled(t.effects) + Ids(t.next.queue)
    decreases |events|
  {
    if events != [] {
      var init := events[..|events| - 1];
      var e := events[|events| - 1];
      assert events == init + [e];
      var before := Exec(s, init, browser);
      var last := Step(before.next, e, browser);
      ExecSnoc(s, init, e, browser);
      ExecConservesWaiters(s, init, browser);
      StepConservesWaiters(before.next, e, browser);
      ParkedSettledAppend(before.effects, last.effects);
      Chain(Ids(s.queue), Parked(before.effects), Parked(last.effects),
            Settled(before.effects), Settled(last.effects), Ids(before.next.queue), Ids(last.next.queue));
    }
  }

  /**
   * From the first client of a freshly loaded module, once the queue has
   * drained, the requests settled are exactly the requests parked, each once
   * and in the order they were parked.
   */
  lemma EveryParkedRequestSettledOnce(cookies: Session.Jar, events: seq<Event>, browser: bool)
    requires Exec(Setup(cookies), events, browser).next.queue == []
    ensures var t := Exec(Setup(cookies), events, browser);
      Parked(t.effects) == Settled(t.effects)
  {
    var t := Exec(Setup(cookies), events, browser);
    ExecConservesWaiters(Setup(cookies), events, browser);
    assert Ids(Setup(cookies).queue) == [];
    assert Ids(t.next.queue) == [];
    assert [] + Parked(t.effects) == Parked(t.effects);
    assert Settled(t.effects) + [] == Settled(t.effects);
  }

  // ---------------------------------------------------------------------
  // Storms

  predicate ExpiredFailure(e: Event) {
    e.Failed? && Classify(e.error) == TokenExpired
  }

  predicate Storm(events: seq<Event>) {
    forall i :: 0 <= i < |events| ==> ExpiredFailure(events[i])
  }

  /** The configs of a storm's requests, in arrival order. */
  function Configs(events: seq<Event>): (r: seq<RequestConfig>)
    requires Storm(events)
    ensures |r| == |events|
    ensures forall i :: 0 <= i < |events| ==> r[i] == events[i].error.config
  {
    if events == [] then [] else [events[0].error.config] + Configs(events[1..])
  }

  /** One expired-token failure: the request joins the end of the queue, a refresh goes out only from idle. */
  lemma ExpiredFailureStep(s: State, e: Event, browser: bool)
    requires ExpiredFailure(e)
    ensures var t := Step(s, e, browser);
      && t.next == s.(refreshing := true, queue := s.queue + [e.error.config])
      && RefreshCount(t.effects) == (if s.refreshing then 0 else 1)
  {
  }

  /**
   * A storm of expired-token failures parks every request in arrival order,
   * raises the flag, and leaves cookies and header alone.
   */
  lemma {:induction false} StormQueuesInOrder(s: State, events: seq<Event>, browser: bool)
    requires Storm(events)
    ensures var t := Exec(s, events, browser);
      && t.next.queue == s.queue + Configs(events)
      && t.next.refreshing == (s.refreshing || events != [])
      && t.next.cookies == s.cookies && t.next.authorization == s.authorization
    decreases |events|
  {
    if events != [] {
      var init := events[..|events| - 1];
      var e := events[|events| - 1];
      assert events == init + [e];
      assert Storm(init);
      var before := Exec(s, init, browser);
      ExecSnoc(s, init, e, browser);
      StormQueuesInOrder(s, init, browser);
      ExpiredFailureStep(before.next, e, browser);
      assert Configs(events) == Configs(init) + [e.error.config];
    }
  }

  /**
   * However many requests fail with an expired token together, exactly one
   * refresh is sent when the storm starts idle, and none when a refresh is
   * already in flight.
   */
  lemma {:induction false} StormIssuesOneRefresh(s: State, events: seq<Event>, browser: bool)
    requires Storm(events)
    ensures RefreshCount(Exec(s, events, browser).effects) == (if !s.refreshing && events != [] then 1 else 0)
    decreases |events|
  {
    if events != [] {
      var init := events[..|events| - 1];
      var e := events[|events| - 1];
      assert events == init + [e];
      assert Storm(init);
      var before := Exec(s, init, browser);
      var last := Step(before.next, e, browser);
      ExecSnoc(s, init, e, browser);
      StormIssuesOneRefresh(s, init, browser);
      StormQueuesInOrder(s, init, browser);
      ExpiredFailureStep(before.next, e, browser);
      RefreshCountAppend(before.effects, last.effects);
    }
  }

  /**
   * N requests failing with an expired token from idle, then the refresh
   * succeeding: one refresh in all, and the client ends idle with the new
   * token in its default header.
   */
  lemma StormThenRefreshSucceeded(s: State, storm: seq<Event>, token: string, refreshToken: string, browser: bool)
    requires !s.refreshing && s.queue == []
    requires Storm(storm) && storm != []
    ensures var t := Exec(s, storm + [RefreshSucceeded(token, refreshToken)], browser);
      && RefreshCount(t.effects) == 1
      && !t.next.refreshing && t.next.queue == []
      && t.next.authorization == "Bearer " + token
  {
    var e := RefreshSucceeded(token, refreshToken);
    var ta := Exec(s, storm, browser);
    ExecSnoc(s, storm, e, browser);
    StormIssuesOneRefresh(s, storm, browser);
    RefreshCountAppend(ta.effects, Step(ta.next, e, browser).effects);
  }

  /**
   * After a storm of expired-token failures, a successful refresh writes the
   * two cookies, then replays the waiting requests followed by the storm's
   * requests in the order they failed, each with the new token, then signs
   * out in the browser.
   */
  lemma StormThenRefreshReplaysInOrder(s: State, storm: seq<Event>, token: string, refreshToken: string, browser: bool)
    requires Storm(storm)
    ensures Step(Exec(s, storm, browser).next, RefreshSucceeded(token, refreshToken), browser).effects
         == [SetCookie("nextauth.token", token, 2592000, "/"), SetCookie("nextauth.refreshToken", refreshToken, 2592000, "/")]
            + Replays(s.queue + Configs(storm), token) + (if browser then [SignOut] else [])
  {
    StormQueuesInOrder(s, storm, browser);
  }

  /**
   * After a storm of expired-token failures, a refresh that fails without
   * the expired-token code rejects the waiting requests followed by the
   * storm's requests, in the order they failed, each with what the
   * interceptor made of the refresh's failure, signing out first in the
   * browser on a 401. A refresh that fails as expired instead joins the end
   * of the queue, behind the storm, and settles nobody.
   */
  lemma StormThenRefreshFailed(s: State, storm: seq<Event>, error: AxiosError, browser: bool)
    requires Storm(storm)
    ensures var ta := Exec(s, storm, browser);
      var t := Step(ta.next, RefreshFailed(error), browser);
      Classify(error) != TokenExpired ==>
        var r := Refuse(error, browser);
        && t.effects == SignOutIf(r.signsOut) + Rejections(s.queue + Configs(storm), r.reason)
        && !t.next.refreshing && t.next.queue == []
        && t.next.cookies == JarAfter(s.cookies, r.signsOut) && t.next.authorization == s.authorization
    ensures var ta := Exec(s, storm, browser);
      var t := Step(ta.next, RefreshFailed(error), browser);
      Classify(error) == TokenExpired && (s.refreshing || storm != []) ==>
        && t.effects == [Park(error.config)]
        && t.next.refreshing && t.next.queue == s.queue + Configs(storm) + [error.config]
  {
    StormQueuesInOrder(s, storm, browser);
  }

}
