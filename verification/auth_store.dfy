/**
 * The client's session store: a record `{user, token, isAuthenticated,
 * isLoading}` with one transition function per action. Browser storage is a
 * map from keys to stored values; the persistence layer writes the snapshot
 * under its key after every state change, and rehydration reads it back.
 */
module AuthStore {
  import opened Wrappers
  import opened Api
  import AuthController

  /** The client's user is the user object of the login payload. */
  type User = AuthController.PublicUser

  const TokenKey := "sol-x-token"
  const UserKey := "sol-x-user"
  const StoreKey := "sol-x-auth"

  datatype AuthState = AuthState(user: Option<User>, token: Option<string>, isAuthenticated: bool, isLoading: bool)

  /** What the persistence layer keeps: everything but `isLoading`. */
  datatype Persisted = Persisted(user: Option<User>, token: Option<string>, isAuthenticated: bool)

  datatype Stored = Text(text: string) | Snapshot(snapshot: Persisted)

  type Storage = map<string, Stored>

  datatype Client = Client(state: AuthState, storage: Storage)

  const Initial := AuthState(None, None, false, false)

  /** The session invariant: the client counts as logged in exactly when it holds a token. */
  predicate Consistent(s: AuthState)
  {
    s.isAuthenticated <==> s.token.Some?
  }

  function Partialize(s: AuthState): (p: Persisted)
    ensures p.user == s.user && p.token == s.token && p.isAuthenticated == s.isAuthenticated
  {
    Persisted(s.user, s.token, s.isAuthenticated)
  }

  /** Storage holds the snapshot of the current state under the store's key. */
  predicate Mirrored(c: Client)
  {
    StoreKey in c.storage && c.storage[StoreKey] == Snapshot(Partialize(c.state))
  }

  predicate Good(c: Client)
  {
    Consistent(c.state) && Mirrored(c)
  }

  /** A state change: the new state, and its snapshot written to storage. */
  function Commit(storage: Storage, s: AuthState): (c: Client)
    ensures c.state == s && Mirrored(c)
    ensures forall k :: k != StoreKey ==> (k in c.storage <==> k in storage)
    ensures forall k :: k != StoreKey && k in storage ==> c.storage[k] == storage[k]
  {
    Client(s, storage[StoreKey := Snapshot(Partialize(s))])
  }

  /** A fresh page load: the initial state overwritten by whatever snapshot storage holds. */
  function Rehydrate(storage: Storage): (c: Client)
    ensures !c.state.isLoading
    ensures StoreKey in storage && storage[StoreKey].Snapshot? ==>
              Partialize(c.state) == storage[StoreKey].snapshot
    ensures !(StoreKey in storage && storage[StoreKey].Snapshot?) ==> c.state == Initial
    ensures c.storage == storage
  {
    if StoreKey in storage && storage[StoreKey].Snapshot? then
      var p := storage[StoreKey].snapshot;
      Client(AuthState(p.user, p.token, p.isAuthenticated, false), storage)
    else Client(Initial, storage)
  }

  /** `login`, first half: the request is on its way. */
  function LoginStart(c: Client): (d: Client)
    ensures d.state == c.state.(isLoading := true)
    ensures Good(c) ==> Good(d)
  {
    Commit(c.storage, c.state.(isLoading := true))
  }

  /** The outcome of the login call as the client sees it: the payload, or an exception. */
  datatype LoginCall = Answered(data: AuthController.LoginData) | Threw(error: string)

  /** The HTTP client resolves 2xx replies to their payload and throws for the rest. */
  function CallOf(reply: Reply<AuthController.LoginData>): (call: LoginCall)
    ensures call.Answered? <==> reply.Success?
    ensures call.Answered? ==> call.data == reply.data
  {
    match reply
    case Success(_, data) => Answered(data)
    case Failure(_, error) => Threw(error)
  }

  /** What `login` hands back to its caller: nothing, or the error it rethrows. */
  datatype Settled = Settled(client: Client, rethrown: Option<string>)

  /** `login`, second half: store the session, or clear the loading flag and rethrow. */
  function LoginSettle(c: Client, call: LoginCall): (r: Settled)
    ensures !r.client.state.isLoading
    ensures Good(c) ==> Good(r.client)
    ensures call.Answered? ==>
              && r.rethrown.None?
              && r.client.state.user == Some(call.data.user)
              && r.client.state.token == Some(call.data.accessToken)
              && r.client.state.isAuthenticated
              && TokenKey in r.client.storage && r.client.storage[TokenKey] == Text(call.data.accessToken)
    ensures call.Threw? ==>
              && r.rethrown == Some(call.error)
              && r.client.state == c.state.(isLoading := false)
  {
    match call
    case Answered(data) =>
      var stored := c.storage[TokenKey := Text(data.accessToken)];
      Settled(Commit(stored, AuthState(Some(data.user), Some(data.accessToken), true, false)), None)
    case Threw(error) =>
      Settled(Commit(c.storage, c.state.(isLoading := false)), Some(error))
  }

  function Login(c: Client, call: LoginCall): (r: Settled)
    ensures Good(c) ==> Good(r.client)
  {
    LoginSettle(LoginStart(c), call)
  }

  /** A failed login leaves the session exactly as it was, loading flag aside. */
  lemma FailedLoginKeepsSession(c: Client, error: string)
    ensures var r := Login(c, Threw(error));
            && r.rethrown == Some(error)
            && r.client.state.user == c.state.user
            && r.client.state.token == c.state.token
            && r.client.state.isAuthenticated == c.state.isAuthenticated
            && !r.client.state.isLoading
  {
  }

  /** `logout` and `clearAuth`: drop both keys, then forget the session. */
  function ClearAuth(c: Client): (d: Client)
    ensures d.state == AuthState(None, None, false, c.state.isLoading)
    ensures TokenKey !in d.storage && UserKey !in d.storage
    ensures Good(d)
  {
    Commit(c.storage - {TokenKey, UserKey}, AuthState(None, None, false, c.state.isLoading))
  }

  /** `logout` runs the very statements of `clearAuth`. */
  function Logout(c: Client): Client
  {
    ClearAuth(c)
  }

  lemma LogoutIdempotent(c: Client)
    ensures Logout(Logout(c)) == Logout(c)
  {
    var once := Logout(c);
    assert once.storage - {TokenKey, UserKey} == once.storage;
  }

  /** `setUser`: adopt a user and token obtained elsewhere. */
  function SetUser(c: Client, user: User, token: string): (d: Client)
    ensures d.state == c.state.(user := Some(user), token := Some(token), isAuthenticated := true)
    ensures TokenKey in d.storage && d.storage[TokenKey] == Text(token)
    ensures Good(c) ==> Good(d)
  {
    Commit(c.storage[TokenKey := Text(token)], c.state.(user := Some(user), token := Some(token), isAuthenticated := true))
  }

  /** `updateUser`: replace the user, nothing else. */
  function UpdateUser(c: Client, user: User): (d: Client)
    ensures d.state.user == Some(user)
    ensures d.state.token == c.state.token && d.state.isAuthenticated == c.state.isAuthenticated
    ensures d.state.isLoading == c.state.isLoading
    ensures forall k :: k != StoreKey ==> (k in d.storage <==> k in c.storage)
    ensures forall k :: k != StoreKey && k in c.storage ==> d.storage[k] == c.storage[k]
    ensures Good(c) ==> Good(d)
  {
    Commit(c.storage, c.state.(user := Some(user)))
  }

  datatype Action =
    | StartLogin
    | SettleLogin(call: LoginCall)
    | DoLogout
    | DoClearAuth
    | DoSetUser(user: User, token: string)
    | DoUpdateUser(user: User)
    | Reload

  function Step(c: Client, a: Action): Client
  {
    match a
    case StartLogin => LoginStart(c)
    case SettleLogin(call) => LoginSettle(c, call).client
    case DoLogout => Logout(c)
    case DoClearAuth => ClearAuth(c)
    case DoSetUser(user, token) => SetUser(c, user, token)
    case DoUpdateUser(user) => UpdateUser(c, user)
    case Reload => Rehydrate(c.storage)
  }

  function Run(c: Client, actions: seq<Action>): Client
    decreases |actions|
  {
    if |actions| == 0 then c else Run(Step(c, actions[0]), actions[1..])
  }

  /** The first page load on an empty storage. */
  const Boot := Rehydrate(map[])

  /** Every action, page reloads included, keeps the session invariant and the stored snapshot in step. */
  lemma StepPreserves(c: Client, a: Action)
    requires Good(c)
    ensures Good(Step(c, a))
  {
  }

  lemma {:induction false} RunPreserves(c: Client, actions: seq<Action>)
    requires Good(c)
    ensures Good(Run(c, actions))
    ensures Consistent(Run(c, actions).state)
    decreases |actions|
  {
    if |actions| > 0 {
      StepPreserves(c, actions[0]);
      RunPreserves(Step(c, actions[0]), actions[1..]);
    }
  }

  /** Before anything is stored the session is the initial one; its first commit makes it Good. */
  lemma BootIsInitial()
    ensures Boot.state == Initial && Consistent(Initial)
    ensures Good(LoginStart(Boot)) && Good(Logout(Boot))
  {
  }

  /** From the first page load on, whatever the user does, the session invariant holds. */
  lemma {:induction false} BootRuns(actions: seq<Action>)
    ensures Consistent(Run(Boot, actions).state)
    decreases |actions|
  {
    if |actions| == 0 {
      BootIsInitial();
    } else if actions[0].Reload? {
      assert Step(Boot, actions[0]) == Boot;
      BootRuns(actions[1..]);
    } else {
      BootFirstStep(actions[0]);
      RunPreserves(Step(Boot, actions[0]), actions[1..]);
    }
  }

  /** Any first action but a reload commits a consistent state, which makes the client Good. */
  lemma BootFirstStep(a: Action)
    requires !a.Reload?
    ensures Good(Step(Boot, a))
  {
    BootIsInitial();
  }

  /** A reload after logout comes back logged out. */
  lemma LogoutSurvivesReload(c: Client)
    ensures var d := Rehydrate(Logout(c).storage);
            !d.state.isAuthenticated && d.state.token.None? && d.state.user.None?
  {
  }

  /** A reload restores exactly the persisted part of a Good client; only `isLoading` is reset. */
  lemma ReloadRestores(c: Client)
    requires Good(c)
    ensures Rehydrate(c.storage).state == c.state.(isLoading := false)
  {
  }
}
