/** The client factory of appwrite.ts: `createAppwriteClient(type, session)`
    builds a fresh node-appwrite `Client`, configures it by setter calls and
    returns an object whose `account`, `databases` and `users` getters wrap
    that client. The client is represented by the ordered sequence of setter
    calls it received; the configuration values themselves (endpoint,
    project id, API key) come from the environment and are not modelled. */
module Appwrite {
  import opened JsValues

  /** One configuration call on the freshly built `Client`. */
  datatype Setter = SetEndpoint | SetProject | SetKey | SetSession(session: string)

  /** A configured client: the setter calls it received, in order. */
  datatype Client = Client(setters: seq<Setter>) {
    predicate EndpointSet() { SetEndpoint in setters }
    predicate ProjectSet() { SetProject in setters }
    /** The administrative API key was configured. */
    predicate KeySet() { SetKey in setters }
    /** The session configured last, if any (a later `setSession` overrides). */
    function Session(): Option<string> { LastSession(setters) }
  }

  function LastSession(setters: seq<Setter>): Option<string> {
    if setters == [] then None
    else if setters[|setters| - 1].SetSession? then Some(setters[|setters| - 1].session)
    else LastSession(setters[..|setters| - 1])
  }

  /** The node-appwrite service classes the getters construct. */
  datatype ServiceKind = AccountService | DatabasesService | UsersService

  /** `new Account(client)`, `new Databases(client)` or `new Users(client)`. */
  datatype Service = Service(kind: ServiceKind, client: Client)

  /** The object returned by the factory. */
  datatype AppwriteHandle = AppwriteHandle(client: Client) {
    function Account(): Service { Service(AccountService, client) }
    function Databases(): Service { Service(DatabasesService, client) }
    function Users(): Service { Service(UsersService, client) }
  }

  const AdminMode := "admin"
  const SessionMode := "session"

  /** `createAppwriteClient(type, session)`: endpoint and project first and
      unconditionally; the key exactly when `type === 'admin'`; the session
      exactly when `type === 'session'` and the session value is truthy. */
  function CreateAppwriteClient(kind: string, session: JsString): (h: AppwriteHandle)
    ensures |h.client.setters| >= 2 && h.client.setters[..2] == [SetEndpoint, SetProject]
    ensures SetEndpoint !in h.client.setters[2..] && SetProject !in h.client.setters[2..]
    ensures kind == AdminMode ==> h.client.KeySet() && h.client.Session() == None
    ensures kind == SessionMode && Truthy(session) ==>
              !h.client.KeySet() && h.client.Session() == Some(session.value)
    ensures kind != AdminMode && !(kind == SessionMode && Truthy(session)) ==>
              !h.client.KeySet() && h.client.Session() == None
    ensures !(h.client.KeySet() && h.client.Session().Some?)
  {
    var base := [SetEndpoint, SetProject];
    var keyed := if kind == AdminMode then base + [SetKey] else base;
    var configured := if kind == SessionMode && Truthy(session) then keyed + [SetSession(session.value)] else keyed;
    assert configured[..|configured| - 1] == keyed || configured == keyed;
    assert keyed[..|keyed| - 1] == base || keyed == base;
    assert base[..1] == [SetEndpoint] && [SetEndpoint][..0] == [];
    assert LastSession(base) == None;
    assert LastSession(keyed) == None;
    AppwriteHandle(Client(configured))
  }

  /** A service reached through a getter carries exactly the binding the
      factory built: the key exactly for `'admin'`, the session exactly for
      `'session'` with a truthy value. */
  predicate BoundAs(s: Service, kind: string, session: JsString) {
    && (s.client.KeySet() <==> kind == AdminMode)
    && s.client.Session() == (if kind == SessionMode && Truthy(session) then Some(session.value) else None)
  }

  /** The getters do not depend on the mode: every one of `account`,
      `databases` and `users` (whose service mints JWTs) can be reached from
      every handle, including a `'session'` handle that carries only the
      caller's session, and each carries the factory's binding. */
  lemma AccessorsInEveryMode(kind: string, session: JsString)
    ensures var h := CreateAppwriteClient(kind, session);
      && h.Account().kind == AccountService && BoundAs(h.Account(), kind, session)
      && h.Databases().kind == DatabasesService && BoundAs(h.Databases(), kind, session)
      && h.Users().kind == UsersService && BoundAs(h.Users(), kind, session)
  {
  }
}
