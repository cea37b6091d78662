/**
 * The server-side route guard: a page's server handler wrapped so that it
 * only runs for a request that carries an access token whose claims meet
 * the page's requirement, and so that an invalid-token failure inside it
 * ends the session instead of the render.
 *
 * Decoding the token is an uninterpreted function: `None` stands for the
 * decoder throwing on a malformed token. The page handler is an abstract
 * outcome: what it would do if it were invoked.
 */
module Guard {
  import opened Options
  import Session
  import opened Permissions

  datatype Redirect = Redirect(destination: string, permanent: bool)

  /** Where an unauthenticated request (or one with an invalid token) is sent. */
  const SignInRedirect: Redirect := Redirect("/", false)
  /** Where an authenticated request lacking the required claims is sent. */
  const DashboardRedirect: Redirect := Redirect("/dashboard", false)

  /** What the wrapped page handler does when it is invoked. */
  datatype HandlerOutcome<R> = Returns(result: R) | ThrowsAuthTokenError | ThrowsOther

  /** Why the guard's own promise rejects before reaching the handler. */
  datatype Fault =
    | MalformedToken      // the token decoder throws
    | MissingRequirement  // the evaluator reads an undefined requirement list it needs

  /** How the guard's promise settles. */
  datatype Completion<R> =
    | Resolves(result: R)
    | Redirects(to: Redirect)
    | ResolvesUndefined
    | Rejects(fault: Fault)

  /** The settlement together with the request's cookie jar afterwards. */
  datatype GuardRun<R> = GuardRun(completion: Completion<R>, cookies: Session.Jar)

  /**
   * Whether a request with access token `token` gets through to the handler:
   * either the page states no requirement, or the claims decode and satisfy it.
   */
  predicate Admits(options: Option<Requirement>, decode: string -> Option<User>, token: string) {
    || options.None?
    || (&& decode(token).Some?
        && Evaluable(decode(token).value, options.value)
        && ValidateUserPermissions(decode(token).value, options.value))
  }

  /** The wrapped handler, run against one request's cookie jar. */
  function WithSSRAuth<R>(handler: HandlerOutcome<R>, options: Option<Requirement>,
                          decode: string -> Option<User>, cookies: Session.Jar): (run: GuardRun<R>)
    ensures Session.SessionToken(cookies).None? ==> run == GuardRun(Redirects(SignInRedirect), cookies)
    ensures run.completion.Resolves? ==> handler == Returns(run.completion.result)
    ensures run.cookies == cookies || (run.cookies == Session.Clear(cookies) && handler.ThrowsAuthTokenError?)
    ensures run.completion == Redirects(DashboardRedirect) ==> options.Some?
    ensures run.completion.Rejects? ==> Session.SessionToken(cookies).Some? && options.Some?
  {
    match Session.SessionToken(cookies)
    case None => GuardRun(Redirects(SignInRedirect), cookies)
    case Some(token) =>
      if options.Some? && decode(token).None? then
        GuardRun(Rejects(MalformedToken), cookies)
      else if options.Some? && !Evaluable(decode(token).value, options.value) then
        GuardRun(Rejects(MissingRequirement), cookies)
      else if options.Some? && !ValidateUserPermissions(decode(token).value, options.value) then
        GuardRun(Redirects(DashboardRedirect), cookies)
      else
        match handler
        case Returns(x) => GuardRun(Resolves(x), cookies)
        case ThrowsAuthTokenError => GuardRun(Redirects(SignInRedirect), Session.Clear(cookies))
        case ThrowsOther => GuardRun(ResolvesUndefined, cookies)
  }

  /**
   * Without a token the guard redirects to sign-in and neither decodes the
   * token nor invokes the handler: the run is the same whatever they would do.
   */
  lemma NoTokenShortCircuits<R>(h1: HandlerOutcome<R>, h2: HandlerOutcome<R>, options: Option<Requirement>,
                                d1: string -> Option<User>, d2: string -> Option<User>, cookies: Session.Jar)
    requires Session.TokenCookie !in cookies || cookies[Session.TokenCookie] == ""
    ensures WithSSRAuth(h1, options, d1, cookies) == WithSSRAuth(h2, options, d2, cookies)
    ensures WithSSRAuth(h1, options, d1, cookies).completion == Redirects(Redirect("/", false))
  {
  }

  /**
   * A token whose claims fail the requirement is redirected to the dashboard,
   * with the handler never invoked and the cookies untouched.
   */
  lemma InsufficientClaimsRedirect<R>(h1: HandlerOutcome<R>, h2: HandlerOutcome<R>, req: Requirement,
                                      decode: string -> Option<User>, cookies: Session.Jar)
    requires Session.SessionToken(cookies).Some?
    requires decode(cookies[Session.TokenCookie]).Some?
    requires Evaluable(decode(cookies[Session.TokenCookie]).value, req)
    requires !ValidateUserPermissions(decode(cookies[Session.TokenCookie]).value, req)
    ensures WithSSRAuth(h1, Some(req), decode, cookies) == WithSSRAuth(h2, Some(req), decode, cookies)
    ensures WithSSRAuth(h1, Some(req), decode, cookies) == GuardRun(Redirects(Redirect("/dashboard", false)), cookies)
  {
  }

  /**
   * A user lacking a permission the page requires, with roles left out of
   * the page's options: the evaluator returns false before it would read the
   * roles, so the request is redirected to the dashboard rather than failing.
   */
  lemma FailedPermissionsRedirectWithoutRoles<R>(handler: HandlerOutcome<R>, decode: string -> Option<User>)
    requires decode("t") == Some(User(Some(["a"]), Some(["r"])))
    ensures WithSSRAuth(handler, Some(Requirement(Some(["b"]), None)), decode, map[Session.TokenCookie := "t"])
        == GuardRun(Redirects(DashboardRedirect), map[Session.TokenCookie := "t"])
  {
    MetricsExamples();
  }

  /** Without options the claims are never decoded: any decoder gives the same run. */
  lemma NoOptionsSkipsValidator<R>(handler: HandlerOutcome<R>, d1: string -> Option<User>,
                                   d2: string -> Option<User>, cookies: Session.Jar)
    requires Session.SessionToken(cookies).Some?
    ensures WithSSRAuth(handler, None, d1, cookies) == WithSSRAuth(handler, None, d2, cookies)
    ensures WithSSRAuth(handler, None, d1, cookies).completion != Redirects(DashboardRedirect)
    ensures !WithSSRAuth(handler, None, d1, cookies).completion.Rejects?
  {
  }

  /**
   * The handler's result comes back unchanged exactly when there is a token
   * and the requirement (if any) admits its claims.
   */
  lemma HandlerResultPassesThroughIff<R>(x: R, options: Option<Requirement>,
                                         decode: string -> Option<User>, cookies: Session.Jar)
    ensures WithSSRAuth(Returns(x), options, decode, cookies) == GuardRun(Resolves(x), cookies)
        <==> Session.SessionToken(cookies).Some? && Admits(options, decode, cookies[Session.TokenCookie])
  {
  }

  /**
   * An invalid-token failure in an admitted handler destroys both session
   * cookies and redirects to sign-in; no other path changes the cookies.
   */
  lemma AuthTokenErrorEndsSession<R>(handler: HandlerOutcome<R>, options: Option<Requirement>,
                                     decode: string -> Option<User>, cookies: Session.Jar)
    ensures WithSSRAuth(handler, options, decode, cookies).cookies != cookies
        ==> WithSSRAuth(handler, options, decode, cookies) == GuardRun(Redirects(SignInRedirect), Session.Clear(cookies))
    ensures Session.SessionToken(cookies).Some? && Admits(options, decode, cookies[Session.TokenCookie])
        && handler.ThrowsAuthTokenError?
        ==> WithSSRAuth(handler, options, decode, cookies) == GuardRun(Redirects(Redirect("/", false)), Session.Clear(cookies))
  {
  }

  /**
   * Any other failure in an admitted handler is swallowed: the guard resolves
   * to undefined and leaves the cookies as they were.
   */
  lemma OtherErrorSwallowed<R>(options: Option<Requirement>, decode: string -> Option<User>, cookies: Session.Jar)
    requires Session.SessionToken(cookies).Some? && Admits(options, decode, cookies[Session.TokenCookie])
    ensures WithSSRAuth<R>(ThrowsOther, options, decode, cookies) == GuardRun(ResolvesUndefined, cookies)
  {
  }

  /** The metrics page: an administrator with the permission reaches the page, a viewer does not. */
  lemma MetricsGuardScenarios<R>(x: R, decode: string -> Option<User>)
    requires decode("admin-token") == Some(User(Some(["metrics.list"]), Some(["administrator"])))
    requires decode("viewer-token") == Some(User(Some(["metrics.list"]), Some(["viewer"])))
    ensures WithSSRAuth(Returns(x), Some(MetricsRequirement), decode, map[Session.TokenCookie := "admin-token"]).completion
        == Resolves(x)
    ensures WithSSRAuth(Returns(x), Some(MetricsRequirement), decode, map[Session.TokenCookie := "viewer-token"]).completion
        == Redirects(Redirect("/dashboard", false))
    ensures WithSSRAuth(Returns(x), Some(MetricsRequirement), decode, map[]).completion
        == Redirects(Redirect("/", false))
  {
    MetricsExamples();
    assert "administrator" in Elements(Some(["administrator"]));
  }
}
