/** The route handlers of index.ts, one pure function per route. A handler
    takes the request and the identity provider (every Appwrite call as an
    oracle that answers `Ok(value)` or `Err(error)`), and returns the
    `Outcome`: the responses it sends, in order, the cookie action, and the
    provider calls it makes, in order, each with the service and client it
    went through. */
module Routes {
  import opened JsValues
  import opened Appwrite

  // ---------------------------------------------------------------------
  // Requests

  /** The JSON body fields the handlers read. */
  datatype RequestBody = RequestBody(email: JsString, password: JsString, name: JsString)

  /** What a handler reads from a request: the `session` cookie, the
      `Authorization` header, the parsed body (`None` when `req.body` is
      missing) and the query fields `userId` and `secret`. */
  datatype Request = Request(
    sessionCookie: JsString,
    authorization: JsString,
    body: Option<RequestBody>,
    userId: JsString,
    secret: JsString)

  // ---------------------------------------------------------------------
  // The identity provider, as an oracle

  datatype ProviderError = ProviderError(message: string)

  datatype Result<+T> = Ok(value: T) | Err(error: ProviderError)

  /** A provider session: `userId`, `secret` and `expire` as it returns them. */
  datatype ProviderSession = ProviderSession(userId: string, secret: string, expire: string)

  /** The provider's user record, opaque to the gateway. */
  datatype User = User(id: string)

  datatype OAuthProvider = Google

  /** The answer the provider gives to each call, as a function of the
      service (and so the client binding) the call went through and of its
      arguments. */
  datatype Provider = Provider(
    createOAuth2Token: (Service, OAuthProvider, string, string) -> Result<string>,
    createSession: (Service, JsString, JsString) -> Result<ProviderSession>,
    get: Service -> Result<User>,
    create: (Service, string, string, string, string) -> Result<User>,
    createEmailPasswordSession: (Service, string, string) -> Result<ProviderSession>,
    createJWT: (Service, string) -> Result<string>,
    deleteSession: (Service, string) -> Result<()>)

  /** A provider operation with the arguments it was called with. */
  datatype Op =
    | CreateOAuth2Token(provider: OAuthProvider, successUrl: string, failureUrl: string)
    | CreateSession(userIdArg: JsString, secretArg: JsString)
    | Get
    | Create(newUserId: string, emailArg: string, passwordArg: string, nameArg: string)
    | CreateEmailPasswordSession(emailArg: string, passwordArg: string)
    | CreateJWT(jwtUserId: string)
    | DeleteSession(sessionId: string)

  /** One provider call, with the service it went through. */
  datatype Call = Call(via: Service, op: Op)

  // ---------------------------------------------------------------------
  // Responses

  /** The response body, as a tag plus the message it carries. */
  datatype ResponseBody =
    | Text(text: string)                              // res.send of a plain string
    | OAuthButton(redirectUrl: string)                // HTML button linking to the OAuth URL
    | ErrorJson(error: string)                        // { error: '<message>' }
    | ErrorDetailsJson(error: string, details: string) // { error: '<message>', details: error.message }
    | RawErrorJson(raw: ProviderError)                // { error } with the caught error itself
    | UserJson(user: User)                            // { user }
    | RegisteredJson(message: string, user: User)     // { message, user }
    | TokenJson(message: string, token: string)       // { message, token }
    | LoggedOutHtml                                   // the "Logged out successfully" page
    | LogoutErrorHtml(message: string)                // the "Error logging out: <message>" page

  datatype Response = Response(status: int, body: ResponseBody)

  /** The options object passed to `res.cookie` or `res.clearCookie`;
      `expires` is `None` when the object has no such key. */
  datatype CookieOptions = CookieOptions(httpOnly: bool, secure: bool, sameSite: string, expires: Option<string>, path: string)

  datatype CookieAction =
    | NoCookie
    | SetCookie(name: string, value: string, options: CookieOptions)
    | ClearCookie(name: string, options: CookieOptions)

  /** What a handler did. `responses` lists every response it tried to send,
      in order; the client receives the first. */
  datatype Outcome = Outcome(responses: seq<Response>, cookie: CookieAction, calls: seq<Call>) {
    predicate Responded() { |responses| > 0 }
    /** The status code the client receives. */
    function Status(): int
      requires Responded()
    {
      responses[0].status
    }
  }

  // ---------------------------------------------------------------------
  // Constants of index.ts

  const SessionCookieName := "session"
  const SuccessUrl := "http://localhost:5173/success"
  const FailureUrl := "http://localhost:5173/fail"
  const UniqueId := "unique()"
  const CurrentSession := "current"
  const BearerPrefix := "Bearer "

  const SessionSetText := "Session set successfully"
  const UnauthorizedMessage := "Unauthorized"
  const BodyMissingMessage := "Request body is missing."
  const FieldsRequiredMessage := "Email and password are required."
  const RegisteredMessage := "User registered successfully"
  const RegisterFailedMessage := "Error registering user"
  const LoginSucceededMessage := "Login successful."
  const LoginFailedMessage := "Invalid credentials or error during login"
  const NoSessionMessage := "No session found."

  /** The options `/success` issues the session cookie with. */
  function IssueOptions(expire: string): CookieOptions {
    CookieOptions(httpOnly := true, secure := true, sameSite := "strict", expires := Some(expire), path := "/")
  }

  /** The options logout clears the session cookie with. */
  const ClearOptions := CookieOptions(path := "/", httpOnly := true, secure := true, sameSite := "strict", expires := None)

  /** The client every administrative route builds: `createAppwriteClient('admin', null)`. */
  function AdminHandle(): AppwriteHandle {
    CreateAppwriteClient(AdminMode, None)
  }

  // ---------------------------------------------------------------------
  // GET /auth

  function Auth(p: Provider): (o: Outcome)
    ensures o.cookie == NoCookie
    ensures |o.calls| == 1 && o.calls[0].via == AdminHandle().Account()
    ensures o.calls[0].via.client.KeySet()
    ensures o.calls[0].op == CreateOAuth2Token(Google, SuccessUrl, FailureUrl)
    ensures |o.responses| == 1
    ensures var answer := p.createOAuth2Token(o.calls[0].via, Google, SuccessUrl, FailureUrl);
      match answer
      case Ok(url) => o.responses[0] == Response(200, OAuthButton(url))
      case Err(e) => o.responses[0] == Response(500, RawErrorJson(e))
  {
    var account := AdminHandle().Account();
    var call := Call(account, CreateOAuth2Token(Google, SuccessUrl, FailureUrl));
    match p.createOAuth2Token(account, Google, SuccessUrl, FailureUrl)
    case Ok(url) => Outcome([Response(200, OAuthButton(url))], NoCookie, [call])
    case Err(e) => Outcome([Response(500, RawErrorJson(e))], NoCookie, [call])
  }

  // ---------------------------------------------------------------------
  // GET /success

  /** The OAuth callback: exchanges the query's `userId` and `secret`,
      passed through whatever they are, for a provider session and issues it
      as the `session` cookie. */
  function CompleteOAuth(req: Request, p: Provider): (o: Outcome)
    ensures o.calls == [Call(AdminHandle().Account(), CreateSession(req.userId, req.secret))]
    ensures o.calls[0].via.client.KeySet() && o.calls[0].via.client.Session() == None
    ensures |o.responses| == 1
    ensures var answer := p.createSession(AdminHandle().Account(), req.userId, req.secret);
      && (o.cookie.SetCookie? <==> answer.Ok?)
      && !o.cookie.ClearCookie?
      && match answer
         case Ok(s) =>
           && o.cookie == SetCookie(SessionCookieName, s.secret,
                CookieOptions(httpOnly := true, secure := true, sameSite := "strict", expires := Some(s.expire), path := "/"))
           && o.responses[0] == Response(200, Text(SessionSetText))
         case Err(e) => o.responses[0] == Response(500, RawErrorJson(e))
  {
    var account := AdminHandle().Account();
    var call := Call(account, CreateSession(req.userId, req.secret));
    match p.createSession(account, req.userId, req.secret)
    case Ok(session) =>
      Outcome([Response(200, Text(SessionSetText))],
              SetCookie(SessionCookieName, session.secret, IssueOptions(session.expire)),
              [call])
    case Err(e) => Outcome([Response(500, RawErrorJson(e))], NoCookie, [call])
  }

  // ---------------------------------------------------------------------
  // GET /user

  /** Session inspection. Without a truthy cookie it sends 401 but does not
      return: it still builds a `'session'` client (which then carries no
      session) and calls `account.get()`, whose outcome it tries to send as
      well. */
  function CurrentUser(req: Request, p: Provider): (o: Outcome)
    ensures o.cookie == NoCookie
    ensures o.calls == [Call(CreateAppwriteClient(SessionMode, req.sessionCookie).Account(), Get)]
    ensures !o.calls[0].via.client.KeySet()
    ensures o.calls[0].via.client.Session() ==
              if Truthy(req.sessionCookie) then Some(req.sessionCookie.value) else None
    ensures Truthy(req.sessionCookie) <==> |o.responses| == 1
    ensures !Truthy(req.sessionCookie) ==>
              |o.responses| == 2 && o.responses[0] == Response(401, ErrorJson(UnauthorizedMessage))
    ensures o.Responded() && var last := o.responses[|o.responses| - 1];
      match p.get(o.calls[0].via)
      case Ok(user) => last == Response(200, UserJson(user))
      case Err(e) => last == Response(500, RawErrorJson(e))
  {
    var early := if Truthy(req.sessionCookie) then [] else [Response(401, ErrorJson(UnauthorizedMessage))];
    var account := CreateAppwriteClient(SessionMode, req.sessionCookie).Account();
    var call := Call(account, Get);
    match p.get(account)
    case Ok(user) => Outcome(early + [Response(200, UserJson(user))], NoCookie, [call])
    case Err(e) => Outcome(early + [Response(500, RawErrorJson(e))], NoCookie, [call])
  }

  // ---------------------------------------------------------------------
  // POST /register

  /** `name || ''` */
  function NameOrEmpty(name: JsString): string {
    if Truthy(name) then name.value else ""
  }

  /** The body is present and both email and password are truthy. */
  predicate HasCredentials(body: Option<RequestBody>) {
    body.Some? && Truthy(body.value.email) && Truthy(body.value.password)
  }

  function Register(req: Request, p: Provider): (o: Outcome)
    ensures o.cookie == NoCookie
    ensures |o.responses| == 1
    ensures o.calls != [] <==> HasCredentials(req.body)
    ensures req.body.None? ==> o.responses[0] == Response(400, ErrorJson(BodyMissingMessage))
    ensures req.body.Some? && !HasCredentials(req.body) ==>
              o.responses[0] == Response(400, ErrorJson(FieldsRequiredMessage))
    ensures HasCredentials(req.body) ==>
      var b := req.body.value;
      var account := AdminHandle().Account();
      var op := Create(UniqueId, b.email.value, b.password.value, if b.name.Some? then b.name.value else "");
      && o.calls == [Call(account, op)]
      && match p.create(account, op.newUserId, op.emailArg, op.passwordArg, op.nameArg)
         case Ok(user) => o.responses[0] == Response(201, RegisteredJson(RegisteredMessage, user))
         case Err(e) => o.responses[0] == Response(500, ErrorDetailsJson(RegisterFailedMessage, e.message))
  {
    if req.body.None? then
      Outcome([Response(400, ErrorJson(BodyMissingMessage))], NoCookie, [])
    else
      var b := req.body.value;
      if !Truthy(b.email) || !Truthy(b.password) then
        Outcome([Response(400, ErrorJson(FieldsRequiredMessage))], NoCookie, [])
      else
        var account := AdminHandle().Account();
        var name := NameOrEmpty(b.name);
        var call := Call(account, Create(UniqueId, b.email.value, b.password.value, name));
        match p.create(account, UniqueId, b.email.value, b.password.value, name)
        case Ok(user) => Outcome([Response(201, RegisteredJson(RegisteredMessage, user))], NoCookie, [call])
        case Err(e) => Outcome([Response(500, ErrorDetailsJson(RegisterFailedMessage, e.message))], NoCookie, [call])
  }

  // ---------------------------------------------------------------------
  // POST /login

  /** Verifies the password by creating a provider session, then mints a
      JWT for the `userId` that session names and returns it in the body.
      A missing body makes the destructuring at the top throw: the handler
      itself then sends nothing and calls nothing, and the rejection is left
      to the framework. */
  function Login(req: Request, p: Provider): (o: Outcome)
    ensures o.cookie == NoCookie
    ensures req.body.None? ==> o.responses == [] && o.calls == []
    ensures o.Responded() ==> o.Status() == 200 || o.Status() == 400 || o.Status() == 401
    ensures req.body.Some? && !HasCredentials(req.body) ==>
              o.calls == [] && o.responses == [Response(400, ErrorJson(FieldsRequiredMessage))]
    ensures HasCredentials(req.body) ==>
      var b := req.body.value;
      var admin := AdminHandle();
      var verify := Call(admin.Account(), CreateEmailPasswordSession(b.email.value, b.password.value));
      && |o.responses| == 1
      && match p.createEmailPasswordSession(admin.Account(), b.email.value, b.password.value)
         case Err(e) =>
           && o.calls == [verify]
           && o.responses[0] == Response(401, ErrorDetailsJson(LoginFailedMessage, e.message))
         case Ok(s) =>
           && o.calls == [verify, Call(admin.Users(), CreateJWT(s.userId))]
           && match p.createJWT(admin.Users(), s.userId)
              case Ok(jwt) => o.responses[0] == Response(200, TokenJson(LoginSucceededMessage, jwt))
              case Err(e) => o.responses[0] == Response(401, ErrorDetailsJson(LoginFailedMessage, e.message))
  {
    if req.body.None? then
      Outcome([], NoCookie, [])
    else
      var b := req.body.value;
      if !Truthy(b.email) || !Truthy(b.password) then
        Outcome([Response(400, ErrorJson(FieldsRequiredMessage))], NoCookie, [])
      else
        var appwrite := AdminHandle();
        var verify := Call(appwrite.Account(), CreateEmailPasswordSession(b.email.value, b.password.value));
        match p.createEmailPasswordSession(appwrite.Account(), b.email.value, b.password.value)
        case Err(e) =>
          Outcome([Response(401, ErrorDetailsJson(LoginFailedMessage, e.message))], NoCookie, [verify])
        case Ok(sessionResponse) =>
          var userId := sessionResponse.userId;
          var mint := Call(appwrite.Users(), CreateJWT(userId));
          match p.createJWT(appwrite.Users(), userId)
          case Ok(jwt) =>
            Outcome([Response(200, TokenJson(LoginSucceededMessage, jwt))], NoCookie, [verify, mint])
          case Err(e) =>
            Outcome([Response(401, ErrorDetailsJson(LoginFailedMessage, e.message))], NoCookie, [verify, mint])
  }

  // ---------------------------------------------------------------------
  // POST /logout

  /** Where the session token of a logout request came from. */
  datatype TokenSource = FromCookie(token: string) | FromBearer(token: string) | NoSession

  /** A header the bearer path accepts: truthy and starting with `"Bearer "`. */
  predicate HasBearerScheme(authorization: JsString) {
    Truthy(authorization) && StartsWith(authorization.value, BearerPrefix)
  }

  /** `authHeader.split(" ")[1]`: the text between the first and the second
      space, so `"Bearer "` gives `""` and `"Bearer a b"` gives `"a"`. */
  function BearerToken(header: string): (token: string)
    requires StartsWith(header, BearerPrefix)
    ensures token == TakeUntil(header[|BearerPrefix|..], ' ')
  {
    assert header == "Bearer" + [' '] + header[|BearerPrefix|..];
    SplitAfterSeparator("Bearer", header[|BearerPrefix|..], ' ');
    SplitHead(header[|BearerPrefix|..], ' ');
    Split(header, ' ')[1]
  }

  /** The token selection of `POST /logout`: a truthy cookie wins and the
      header is then not looked at; otherwise the header must use the
      `Bearer ` scheme; a missing header and a wrong scheme are alike. */
  function LocateSession(req: Request): (t: TokenSource)
    ensures Truthy(req.sessionCookie) ==> t == FromCookie(req.sessionCookie.value)
    ensures !Truthy(req.sessionCookie) && !HasBearerScheme(req.authorization) ==> t == NoSession
    ensures !Truthy(req.sessionCookie) && HasBearerScheme(req.authorization) ==>
              t == FromBearer(TakeUntil(req.authorization.value[|BearerPrefix|..], ' '))
  {
    if Truthy(req.sessionCookie) then FromCookie(req.sessionCookie.value)
    else if !Truthy(req.authorization) || !StartsWith(req.authorization.value, BearerPrefix) then NoSession
    else FromBearer(BearerToken(req.authorization.value))
  }

  function Logout(req: Request, p: Provider): (o: Outcome)
    ensures LocateSession(req).NoSession? ==>
              o == Outcome([Response(400, ErrorJson(NoSessionMessage))], NoCookie, [])
    ensures !LocateSession(req).NoSession? ==>
      var account := CreateAppwriteClient(SessionMode, Some(LocateSession(req).token)).Account();
      && o.calls == [Call(account, DeleteSession(CurrentSession))]
      && |o.responses| == 1
      && match p.deleteSession(account, CurrentSession)
         case Ok(_) =>
           && o.responses[0] == Response(200, LoggedOutHtml)
           && o.cookie == if LocateSession(req).FromCookie? then
                ClearCookie(SessionCookieName, CookieOptions(path := "/", httpOnly := true, secure := true, sameSite := "strict", expires := None))
              else NoCookie
         case Err(e) =>
           && o.responses[0] == Response(500, LogoutErrorHtml(e.message))
           && o.cookie == NoCookie
  {
    match LocateSession(req)
    case NoSession => Outcome([Response(400, ErrorJson(NoSessionMessage))], NoCookie, [])
    case _ =>
      var sessionToken := LocateSession(req).token;
      var account := CreateAppwriteClient(SessionMode, Some(sessionToken)).Account();
      var call := Call(account, DeleteSession(CurrentSession));
      match p.deleteSession(account, CurrentSession)
      case Ok(_) =>
        var cookie := if Truthy(req.sessionCookie) then ClearCookie(SessionCookieName, ClearOptions) else NoCookie;
        Outcome([Response(200, LoggedOutHtml)], cookie, [call])
      case Err(e) => Outcome([Response(500, LogoutErrorHtml(e.message))], NoCookie, [call])
  }
}
