# Appwrite JWT/OAuth gateway — a Dafny model of its request handling

The gateway is an Express server that signs users in through Appwrite. It
offers a Google OAuth redirect, an OAuth callback that issues a `session`
cookie, session inspection, registration, password login that returns a JWT,
and logout through either the cookie or an `Authorization: Bearer` header.
Every identity operation is delegated to Appwrite through a client built by
`createAppwriteClient(type, session)`.

This project models the per-request decision logic of those handlers and of
the client factory:

- `js_values.dfy` (module `JsValues`): the JavaScript semantics the handlers
  lean on. A string field is `Option<string>`, with `undefined` and `null`
  both `None`. Truthiness treats `""` as falsy. It also has `startsWith`, and
  `split(" ")` with its round trip back through `join`.
- `appwrite.dfy` (module `Appwrite`): `createAppwriteClient`. The client is
  the ordered list of setter calls it receives (`setEndpoint`,
  `setProject`, `setKey`, `setSession`). The returned object's `account`,
  `databases` and `users` getters all wrap that one client.
- `routes.dfy` (module `Routes`): one pure function per route:
  `GET /auth`, `GET /success`, `GET /user`, `POST /register`, `POST /login`
  and `POST /logout`. Each takes the request and a `Provider`. The
  `Provider` is a record of oracle functions, one per Appwrite call, and
  each answers `Ok(value)` or `Err(error)` from the service and client the
  call went through and from its arguments. Each handler returns an
  `Outcome` with three parts: the responses it tries to send, in order; its
  cookie action (set, clear or none); and the provider calls it makes, in
  order, each with the client binding it used.
- `gateway.dfy` (module `Gateway`): the route table and the properties that
  hold across routes. These cover which binding each operation uses, when the
  session cookie is issued and cleared, which status codes each route can
  send, and the cookie round trip from `/success` to `/user` and `/logout`.

Behaviour of the code that the model keeps as it is:

- `/user` without a truthy cookie sends 401 but does not return. It still
  builds a `'session'` client, which then carries no session, and calls
  `account.get()`.
- On `POST /logout`, a truthy cookie wins and the header is never read.
  Otherwise a missing header and a header of another scheme give the same
  400 `No session found.`
- The bearer token is `split(" ")[1]`. So a header value of `"Bearer "`,
  or `"Bearer  abc"` with two spaces, gives `""`, and the factory then
  silently configures no session at all. `"Bearer a b"` gives `"a"`.
- The factory does not restrict services by mode. Every mode can reach
  `account`, `databases` and `users`.
- `/login` reports every provider failure as 401, never 500, and never sets a
  cookie.

Where a reader of the HTTP API might expect stricter behaviour, the model
follows the code:

- A header of another scheme than `Bearer` is not a separate "malformed
  credential" error. It gets the same 400 as a missing header
  (index.ts:161-165).
- `/user` without a cookie still makes a provider call (index.ts:59-65).
- A `'session'` binding without a session is not an error: the factory
  silently configures no session. Every mode also exposes all three
  services (appwrite.ts:13-31).
- Logout through a bearer token does not answer with JSON. Both paths send
  the same HTML page (index.ts:182-190).
- The cookie is not cleared with an identical options object. The clear
  options are written out separately and are the issuance options minus
  `expires` (index.ts:43-49, 174-179).

## Model

| member | source | states |
|---|---|---|
| `JsValues.Split` | index.ts:166 | `split` on a one-character separator never returns an empty array, and no part contains the separator |
| `JsValues.TakeUntil` | index.ts:166 | the result is the longest prefix without the separator: it is a prefix, holds no separator, and is either the whole string or followed by a separator |
| `JsValues.JoinSplit` | index.ts:166 | joining the parts of a split with the same separator gives back the original string |
| `JsValues.SplitHead` | index.ts:166 | the first part of a split is the text before the first separator |
| `JsValues.SplitAfterSeparator` | index.ts:166 | splitting `p + sep + r`, where `p` has no separator, gives `p` followed by the parts of `r` |
| `Appwrite.CreateAppwriteClient` | appwrite.ts:8-19 | endpoint then project are set first, unconditionally and once. The key is set exactly when the type is `'admin'`, and then no session is set. The session is set, to that value, exactly when the type is `'session'` and the value is truthy, and then no key is set. Any other input sets neither. Key and session are never both set |
| `Appwrite.AccessorsInEveryMode` | appwrite.ts:21-31 | for every type and session value, each of the `account`, `databases` and `users` getters is available and carries the factory's binding: the key exactly for `'admin'`, the session exactly for `'session'` with a truthy value. So `users`, which mints JWTs, is reachable from a `'session'` handle carrying only the caller's session |
| `Routes.Auth` | index.ts:18-34 | one `createOAuth2Token(Google, success URL, failure URL)` call, made through the admin client. 200 with the redirect button when it succeeds, 500 with the raw error when it fails. No cookie |
| `Routes.CompleteOAuth` | index.ts:36-55 | one `createSession(userId, secret)` call, with the query values passed through, made through the admin client. A cookie is set exactly when the call succeeds: `session` = the session's secret, `expires` = its expiry verbatim, httpOnly, secure, sameSite strict, path `/`, answered with 200 `Session set successfully`. On failure: 500 with the raw error, no cookie |
| `Routes.CurrentUser` | index.ts:57-71 | always exactly one `get()` call, through a client with no key and with the session exactly when the cookie is truthy. Without a truthy cookie, 401 `Unauthorized` is sent first and a second response still follows. The last response is 200 with the user, or 500 with the raw error |
| `Routes.Register` | index.ts:73-104 | a provider call happens exactly when the body is present and email and password are truthy. A missing body gives 400 `Request body is missing.`; a falsy email or password gives 400 `Email and password are required.` Otherwise one `create('unique()', email, password, name)` with the name, or `""` when it is missing or `null`, call through the admin client, then 201 with the user, or 500 with `Error registering user` and the error message. No cookie |
| `Routes.Login` | index.ts:106-139 | never sends 500 and never sets a cookie. With a missing body the handler throws before it sends or calls anything. A falsy email or password gives 400 with no call. Otherwise it calls `createEmailPasswordSession(email, password)` through the admin client's account, and only if that succeeds calls `createJWT` with the returned `userId` through the same client's users service. 200 with that JWT as the token, 401 with the error message when either call fails |
| `Routes.BearerToken` | index.ts:166 | `header.split(" ")[1]` is the text after `"Bearer "` up to the next space |
| `Routes.LocateSession` | index.ts:155-167 | a truthy cookie is the token, whatever the header says. Without one, a header that is falsy or does not start with `"Bearer "` gives no session. Otherwise the token comes from the bearer header as above |
| `Routes.Logout` | index.ts:154-192 | with no session found: 400 `No session found.`, no call, no cookie action. Otherwise one `deleteSession('current')` call, through a `'session'` client built from the token. On success: 200 and the logged-out page, plus a cookie clear, with the issuance attributes, exactly when the token came from the cookie. On failure: 500 with the error message and no cookie action |
| `Gateway.BindingMatchesOperation` | index.ts:20-171 | on every route, every provider call goes through a client with at most one of key and session. The administrative operations are exactly those made through a client with the key |
| `Gateway.CallCount` | index.ts:18-192 | each route makes at most one provider call, except login, which makes at most two |
| `Gateway.StatusesPerRoute` | index.ts:18-192 | the first status each route sends is among its own: `/auth` and `/success` 200/500; `/user` 200/401/500; `/register` 201/400/500; `/login` 200/400/401; `/logout` 200/400/500 |
| `Gateway.UnansweredOnlyOnBodilessLogin` | index.ts:106-107 | the handler itself sends nothing (it throws) exactly when it is a login without a body |
| `Gateway.CookieIssuedOnlyAfterExchange` | index.ts:41-49 | the session cookie is set only by `/success`, and only with the secret and expiry of a session the provider just created |
| `Gateway.CookieClearedOnlyAfterRevocation` | index.ts:169-180 | the cookie is cleared only by logout, only when the request had a truthy cookie, only after `deleteSession` succeeded through the client bound to that cookie, and only with the clear options: path `/`, httpOnly, secure, sameSite strict, and no `expires` |
| `Gateway.IssuedCookieAuthenticatesUser` | index.ts:43-65 | a cookie issued by `/success`, sent back to `/user`, makes one `get()` call through a client bound to exactly that secret, and the provider's user is the only response. An empty secret gets a 401 first |
| `Gateway.IssuedCookieClearedWithSameAttributes` | index.ts:43-179 | a successful logout clears the issued cookie under the same name, with options equal to the issuance options without `expires` |
| `Gateway.CookieOverridesHeader` | index.ts:155-160 | with a truthy cookie, the logout outcome does not depend on the `Authorization` header |
| `Gateway.NoBearerIsNoSession` | index.ts:161-165 | without a truthy cookie, a header that is missing, empty or of another scheme gives the same outcome: 400 with no provider call |
| `Gateway.BearerTokenExamples` | index.ts:166 | `"Bearer "` gives `""`, `"Bearer abc"` gives `"abc"`, and `"Bearer a b"` gives `"a"` |
| `Gateway.EmptyBearerTokenBindsNothing` | index.ts:166-171 | a header value, as the handler sees it, of `"Bearer "` followed by nothing or by another space yields the empty token and still reaches `deleteSession('current')`, through a client with neither key nor session |
| `Gateway.UnauthenticatedUserStillReachesProvider` | index.ts:59-65 | `/user` without a truthy cookie answers 401 first and still calls `get()`, through a client with neither key nor session |

## Left out

- The Appwrite calls themselves (`createOAuth2Token`, `createSession`, `get`, `create`, `createEmailPasswordSession`, `createJWT`, `deleteSession`): they are network calls into a foreign library. Each is an oracle function of the `Provider` record.
- Express plumbing: `app.use`, `cookieParser`, `express.json`, `app.listen`, response chaining and content types. Each response is a status plus a body tag.
- The runtime error a second send raises after `/user`'s un-returned 401: the model lists every response the handler tries to send, and the client receives the first.
- What Express does with the rejected promise when `/login` gets no body: the destructuring throws before the handler sends or calls anything, and the model records only that. Depending on the Express version the framework may then answer 500, or not answer at all.
- Environment configuration: `dotenv`, the endpoint, project id and API key values, and the `PORT` default. The setter calls are recorded without their values.
- The static handlers `GET /` and `GET /logout`, and the exact HTML text of every page: pages are tags plus the message they embed.
- Logging (`console.error`, `console.log`): no effect on responses.
- globalTypes.d.ts: an ambient type declaration with no behaviour.
- `new Date(session.expire)`: the expiry is passed through as the opaque string the provider returned.
- Non-string request values, such as numbers in the JSON body, arrays in the query string, or objects from `j:` JSON cookies: fields are modelled as strings or missing only.
- `createAppwriteClient`'s `type` parameter is `any` in the code. It is modelled as a string, compared with `===`.
- Asynchrony: each handler runs its provider calls in sequence and none runs concurrently. Only that sequence is modelled.
