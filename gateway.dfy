/** The routes index.ts registers, as one table, and the properties that
    hold across them: which client binding each provider operation uses,
    when the session cookie is issued or cleared, the status codes each
    route can send, and how the session cookie and the bearer header
    interact. */
module Gateway {
  import opened JsValues
  import opened Appwrite
  import opened Routes

  /** The routes with behaviour beyond static content. */
  datatype Route = GetAuth | GetSuccess | GetUser | PostRegister | PostLogin | PostLogout

  function Dispatch(route: Route, req: Request, p: Provider): Outcome {
    match route
    case GetAuth => Auth(p)
    case GetSuccess => CompleteOAuth(req, p)
    case GetUser => CurrentUser(req, p)
    case PostRegister => Register(req, p)
    case PostLogin => Login(req, p)
    case PostLogout => Logout(req, p)
  }

  /** The operations index.ts reaches through an administrative client. */
  predicate AdministrativeOp(op: Op) {
    op.CreateOAuth2Token? || op.CreateSession? || op.Create? || op.CreateEmailPasswordSession? || op.CreateJWT?
  }

  /** The status codes each route can send first. */
  function RouteStatuses(route: Route): set<int> {
    match route
    case GetAuth => {200, 500}
    case GetSuccess => {200, 500}
    case GetUser => {200, 401, 500}
    case PostRegister => {201, 400, 500}
    case PostLogin => {200, 400, 401}
    case PostLogout => {200, 400, 500}
  }

  /** Every provider call goes through a client that carries at most one
      authority, and the administrative operations are exactly the ones
      made through a client with the API key. */
  lemma BindingMatchesOperation(route: Route, req: Request, p: Provider)
    ensures var o := Dispatch(route, req, p);
      forall i :: 0 <= i < |o.calls| ==>
        && !(o.calls[i].via.client.KeySet() && o.calls[i].via.client.Session().Some?)
        && (AdministrativeOp(o.calls[i].op) <==> o.calls[i].via.client.KeySet())
  {
  }

  /** Each route makes at most one provider call, except login, which makes
      at most two. */
  lemma CallCount(route: Route, req: Request, p: Provider)
    ensures |Dispatch(route, req, p).calls| <= (if route == PostLogin then 2 else 1)
  {
  }

  /** The status code a route sends first is one of its own. */
  lemma StatusesPerRoute(route: Route, req: Request, p: Provider)
    ensures var o := Dispatch(route, req, p);
      o.Responded() ==> o.Status() in RouteStatuses(route)
  {
  }

  /** The handler itself sends nothing only on the login route when the
      body is missing, where it throws before any response or call. */
  lemma UnansweredOnlyOnBodilessLogin(route: Route, req: Request, p: Provider)
    ensures !Dispatch(route, req, p).Responded() <==> route == PostLogin && req.body.None?
  {
  }

  /** The session cookie is issued only by the OAuth callback, and only with
      the secret and expiry of a session the provider just created. */
  lemma CookieIssuedOnlyAfterExchange(route: Route, req: Request, p: Provider)
    ensures var o := Dispatch(route, req, p);
      o.cookie.SetCookie? ==>
        && route == GetSuccess
        && var answer := p.createSession(AdminHandle().Account(), req.userId, req.secret);
        && answer.Ok?
        && o.cookie == SetCookie(SessionCookieName, answer.value.secret, IssueOptions(answer.value.expire))
  {
  }

  /** The session cookie is cleared only by logout, only when the request
      carried a truthy cookie, only after the provider deleted the session
      bound to that cookie, and with the attributes it was issued with. */
  lemma CookieClearedOnlyAfterRevocation(route: Route, req: Request, p: Provider)
    ensures var o := Dispatch(route, req, p);
      o.cookie.ClearCookie? ==>
        && route == PostLogout
        && Truthy(req.sessionCookie)
        && p.deleteSession(CreateAppwriteClient(SessionMode, req.sessionCookie).Account(), CurrentSession).Ok?
        && o.cookie == ClearCookie(SessionCookieName, ClearOptions)
  {
  }

  /** Round trip: a cookie issued by the OAuth callback, sent back to
      `/user`, binds the inspection to exactly that session and nothing
      else, and the provider's user is what the client receives. An empty
      secret is the exception: `/user` then answers 401 first. */
  lemma IssuedCookieAuthenticatesUser(req: Request, p: Provider, next: Request)
    requires p.createSession(AdminHandle().Account(), req.userId, req.secret).Ok?
    requires next.sessionCookie == Some(CompleteOAuth(req, p).cookie.value)
    ensures var secret := p.createSession(AdminHandle().Account(), req.userId, req.secret).value.secret;
      var o := CurrentUser(next, p);
      var account := Service(AccountService, Client([SetEndpoint, SetProject, SetSession(secret)]));
      && (secret != "" ==> o.calls == [Call(account, Get)] && |o.responses| == 1)
      && (secret != "" && p.get(account).Ok? ==> o.responses == [Response(200, UserJson(p.get(account).value))])
      && (secret == "" ==> o.Status() == 401)
  {
    var secret := p.createSession(AdminHandle().Account(), req.userId, req.secret).value.secret;
    var h := CreateAppwriteClient(SessionMode, next.sessionCookie);
    if secret != "" {
      assert h.client.setters[..2] == [SetEndpoint, SetProject];
      assert h.client.setters == [SetEndpoint, SetProject, SetSession(secret)];
    }
  }

  /** A cookie issued by the OAuth callback is cleared by a successful
      logout with the same name and the same attributes it was set with,
      except `expires`, which the clear options leave out. */
  lemma IssuedCookieClearedWithSameAttributes(req: Request, p: Provider, next: Request)
    requires p.createSession(AdminHandle().Account(), req.userId, req.secret).Ok?
    requires next.sessionCookie == Some(CompleteOAuth(req, p).cookie.value)
    requires Truthy(next.sessionCookie)
    requires p.deleteSession(CreateAppwriteClient(SessionMode, next.sessionCookie).Account(), CurrentSession).Ok?
    ensures var issued := CompleteOAuth(req, p).cookie;
      Logout(next, p).cookie == ClearCookie(issued.name, issued.options.(expires := None))
  {
  }

  /** With a truthy session cookie, logout does not look at the
      `Authorization` header at all. */
  lemma CookieOverridesHeader(req: Request, header: JsString, p: Provider)
    requires Truthy(req.sessionCookie)
    ensures Logout(req.(authorization := header), p) == Logout(req, p)
  {
  }

  /** Without a truthy cookie, a header that is missing, empty or of another
      scheme all give the same 400 and no provider call. */
  lemma NoBearerIsNoSession(req: Request, p: Provider)
    requires !Truthy(req.sessionCookie) && !HasBearerScheme(req.authorization)
    ensures Logout(req, p) == Logout(req.(authorization := None), p)
    ensures Logout(req, p) == Outcome([Response(400, ErrorJson(NoSessionMessage))], NoCookie, [])
  {
  }

  /** The bearer token is the second space-separated segment of the header. */
  lemma BearerTokenExamples()
    ensures BearerToken("Bearer ") == ""
    ensures BearerToken("Bearer abc") == "abc"
    ensures BearerToken("Bearer a b") == "a"
  {
  }

  /** A header value, as the handler sees it, of `"Bearer "` followed by
      nothing or by another space (`"Bearer  abc"`; a lone trailing space is
      usually trimmed before the handler sees it) gives the empty token. It
      still reaches the provider: the empty token is silently not
      configured, so `deleteSession` goes through a client that carries
      neither the key nor a session. */
  lemma EmptyBearerTokenBindsNothing(req: Request, p: Provider)
    requires !Truthy(req.sessionCookie) && req.authorization.Some?
    requires var h := req.authorization.value;
      StartsWith(h, BearerPrefix) && (|h| == |BearerPrefix| || h[|BearerPrefix|] == ' ')
    ensures Logout(req, p).calls ==
              [Call(Service(AccountService, Client([SetEndpoint, SetProject])), DeleteSession(CurrentSession))]
  {
  }

  /** `/user` without a truthy cookie answers 401 first and still calls
      `account.get()` through a client carrying neither key nor session. */
  lemma UnauthenticatedUserStillReachesProvider(req: Request, p: Provider)
    requires !Truthy(req.sessionCookie)
    ensures var o := CurrentUser(req, p);
      && o.Status() == 401
      && o.calls == [Call(Service(AccountService, Client([SetEndpoint, SetProject])), Get)]
  {
  }
}
