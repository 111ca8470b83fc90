/**
 * The session store (src/hooks/authStore.ts) with the storage writes of the
 * authentication service (src/services/auth.service.ts) it triggers. The
 * server's reply is a parameter; JSON serialisation and parsing of the stored
 * user are parameters too.
 */
module AuthStore {
  import opened Wrappers
  import opened JsValues
  import opened Types
  import opened Storage
  import opened Api

  const LoginError := "Erreur de connexion"
  const RegisterError := "Erreur d'inscription"
  const ProfileError := "Erreur de mise à jour"

  /** The `{ user, token }` a successful login or registration returns. */
  datatype AuthReply = AuthReply(user: User, token: string)

  /** What `JSON.parse` makes of the stored user: an exception, or a value (`null` parses to no user). */
  datatype Parsed = Malformed | Value(user: Option<User>)

  datatype State = State(
    user: Option<User>,
    token: Option<string>,
    isAuthenticated: bool,
    isLoading: bool,
    error: Option<string>)

  const InitialState := State(None, None, false, false, None)

  /** The session invariant: authenticated exactly when a token is held. */
  predicate SessionConsistent(s: State) {
    s.isAuthenticated <==> s.token.Some?
  }

  /** The state after a successful login or registration. */
  function SignedIn(s: State, reply: AuthReply): (t: State)
    ensures SessionConsistent(t) && t.isAuthenticated
    ensures t.user == Some(reply.user) && t.token == Some(reply.token)
    ensures !t.isLoading && t.error == None
  {
    State(Some(reply.user), Some(reply.token), true, false, None)
  }

  /** The state after a failed request: error text set, loading over, the session untouched. */
  function Rejected(s: State, e: ApiError, fallback: string): (t: State)
    ensures t.user == s.user && t.token == s.token && t.isAuthenticated == s.isAuthenticated
    ensures !t.isLoading && t.error == Some(OrElse(e.message, fallback))
    ensures SessionConsistent(s) ==> SessionConsistent(t)
  {
    s.(isLoading := false, error := Some(OrElse(e.message, fallback)))
  }

  /** The state after logout: no user, no token, no error; loading untouched. */
  function SignedOut(s: State): (t: State)
    ensures SessionConsistent(t) && !t.isAuthenticated
    ensures t.user == None && t.token == None && t.error == None && t.isLoading == s.isLoading
  {
    s.(user := None, token := None, isAuthenticated := false, error := None)
  }

  /** The state `loadUser` leaves, given the two stored entries and the parse of the user entry. */
  function Loaded(s: State, token: Option<string>, userText: Option<string>, parsed: Parsed): (t: State)
    ensures !(TruthyString(token) && TruthyString(userText) && parsed.Value?) ==> t == s
    ensures TruthyString(token) && TruthyString(userText) && parsed.Value? ==>
      t == s.(user := parsed.user, token := token, isAuthenticated := true)
    ensures SessionConsistent(s) ==> SessionConsistent(t)
  {
    if TruthyString(token) && TruthyString(userText) && parsed.Value? then
      s.(user := parsed.user, token := token, isAuthenticated := true)
    else s
  }

  class AuthStoreState {
    var user: Option<User>
    var token: Option<string>
    var isAuthenticated: bool
    var isLoading: bool
    var error: Option<string>

    function View(): State
      reads this
    {
      State(user, token, isAuthenticated, isLoading, error)
    }

    predicate Valid()
      reads this
    {
      SessionConsistent(View())
    }

    constructor ()
      ensures View() == InitialState && Valid()
    {
      user := None;
      token := None;
      isAuthenticated := false;
      isLoading := false;
      error := None;
    }

    method BeginRequest()
      modifies this
      ensures View() == old(View()).(isLoading := true, error := None)
    {
      isLoading := true;
      error := None;
    }

    /** A successful login or registration: the service stores token and user, the store holds them. */
    method SignIn(reply: AuthReply, storage: BrowserStorage, serialise: User -> string)
      modifies this, storage
      ensures View() == SignedIn(old(View()), reply)
      ensures storage.entries == old(storage.entries)[TokenKey := reply.token][UserKey := serialise(reply.user)]
    {
      storage.SetItem(TokenKey, reply.token);
      storage.SetItem(UserKey, serialise(reply.user));
      user := Some(reply.user);
      token := Some(reply.token);
      isAuthenticated := true;
      isLoading := false;
      error := None;
    }

    method Reject(e: ApiError, fallback: string)
      modifies this
      ensures View() == Rejected(old(View()), e, fallback)
    {
      isLoading := false;
      error := Some(OrElse(e.message, fallback));
    }

    /**
     * `login`: signs in on success; on failure records the error and re-raises
     * it. The reply reaches the store through the response interceptor, so a
     * 401 has already dropped both stored entries and redirected to /login.
     */
    method Login(reply: Result<AuthReply, HttpFailure>, storage: BrowserStorage, serialise: User -> string)
      returns (outcome: Outcome<ApiError>, notice: Option<string>, redirect: Option<string>)
      requires Valid()
      modifies this, storage
      ensures Valid()
      ensures reply.Ok? ==> outcome == Pass && View() == SignedIn(old(View()), reply.value)
      ensures reply.Ok? ==> storage.entries == old(storage.entries)[TokenKey := reply.value.token][UserKey := serialise(reply.value.user)]
      ensures reply.Ok? ==> notice == None && redirect == None
      ensures reply.Err? ==> outcome == Fail(Rejection(reply.error))
      ensures reply.Err? ==> View() == Rejected(old(View()), Rejection(reply.error), LoginError)
      ensures reply.Err? ==> notice == Some(ErrorNotice(reply.error))
      ensures reply.Err? && reply.error.StatusFailure? && reply.error.status == 401 ==>
        redirect == Some("/login") && storage.entries == old(storage.entries) - {TokenKey, UserKey}
      ensures reply.Err? && !(reply.error.StatusFailure? && reply.error.status == 401) ==>
        redirect == None && storage.entries == old(storage.entries)
    {
      BeginRequest();
      var passed;
      passed, notice, redirect := HandleResponse(reply, storage);
      match passed {
        case Ok(r) =>
          SignIn(r, storage, serialise);
          outcome := Pass;
        case Err(f) =>
          Reject(Rejection(f), LoginError);
          outcome := Fail(Rejection(f));
      }
    }

    /** `register`: the same as login, with its own error text. */
    method Register(reply: Result<AuthReply, HttpFailure>, storage: BrowserStorage, serialise: User -> string)
      returns (outcome: Outcome<ApiError>, notice: Option<string>, redirect: Option<string>)
      requires Valid()
      modifies this, storage
      ensures Valid()
      ensures reply.Ok? ==> outcome == Pass && View() == SignedIn(old(View()), reply.value)
      ensures reply.Ok? ==> storage.entries == old(storage.entries)[TokenKey := reply.value.token][UserKey := serialise(reply.value.user)]
      ensures reply.Ok? ==> notice == None && redirect == None
      ensures reply.Err? ==> outcome == Fail(Rejection(reply.error))
      ensures reply.Err? ==> View() == Rejected(old(View()), Rejection(reply.error), RegisterError)
      ensures reply.Err? ==> notice == Some(ErrorNotice(reply.error))
      ensures reply.Err? && reply.error.StatusFailure? && reply.error.status == 401 ==>
        redirect == Some("/login") && storage.entries == old(storage.entries) - {TokenKey, UserKey}
      ensures reply.Err? && !(reply.error.StatusFailure? && reply.error.status == 401) ==>
        redirect == None && storage.entries == old(storage.entries)
    {
      BeginRequest();
      var passed;
      passed, notice, redirect := HandleResponse(reply, storage);
      match passed {
        case Ok(r) =>
          SignIn(r, storage, serialise);
          outcome := Pass;
        case Err(f) =>
          Reject(Rejection(f), RegisterError);
          outcome := Fail(Rejection(f));
      }
    }

    /** `logout`: drops both stored entries and the session. */
    method Logout(storage: BrowserStorage)
      modifies this, storage
      ensures Valid()
      ensures View() == SignedOut(old(View()))
      ensures storage.entries == old(storage.entries) - {TokenKey, UserKey}
    {
      storage.RemoveItem(TokenKey);
      storage.RemoveItem(UserKey);
      user := None;
      token := None;
      isAuthenticated := false;
      error := None;
    }

    /**
     * `loadUser`: restores the session when both entries are present; a user
     * entry that does not parse drops both entries and leaves the state alone.
     */
    method LoadUser(storage: BrowserStorage, parse: string -> Parsed)
      requires Valid()
      modifies this, storage
      ensures Valid()
      ensures var t := old(storage.GetItem(TokenKey));
              var u := old(storage.GetItem(UserKey));
              View() == Loaded(old(View()), t, u, if u.Some? then parse(u.value) else Malformed)
      ensures var t := old(storage.GetItem(TokenKey));
              var u := old(storage.GetItem(UserKey));
              storage.entries ==
                if TruthyString(t) && TruthyString(u) && parse(u.value).Malformed?
                then old(storage.entries) - {TokenKey, UserKey}
                else old(storage.entries)
    {
      var storedToken := storage.GetItem(TokenKey);
      var userText := storage.GetItem(UserKey);
      if TruthyString(storedToken) && TruthyString(userText) {
        match parse(userText.value) {
          case Value(u) =>
            user := u;
            token := storedToken;
            isAuthenticated := true;
          case Malformed =>
            storage.RemoveItem(TokenKey);
            storage.RemoveItem(UserKey);
        }
      }
    }

    /** `updateUser`: on success only the user changes. */
    method UpdateUser(reply: Result<User, ApiError>)
      returns (outcome: Outcome<ApiError>)
      requires Valid()
      modifies this
      ensures Valid()
      ensures reply.Ok? ==> outcome == Pass && View() == old(View()).(user := Some(reply.value), isLoading := false, error := None)
      ensures reply.Err? ==> outcome == Fail(reply.error) && View() == Rejected(old(View()), reply.error, ProfileError)
    {
      BeginRequest();
      match reply {
        case Ok(u) =>
          user := Some(u);
          isLoading := false;
          outcome := Pass;
        case Err(e) =>
          Reject(e, ProfileError);
          outcome := Fail(e);
      }
    }

    method ClearError()
      requires Valid()
      modifies this
      ensures Valid()
      ensures View() == old(View()).(error := None)
    {
      error := None;
    }
  }

  /** The store's actions as transitions on its state, each as the methods above state it. */
  datatype Action =
    | LoginOk(reply: AuthReply)
    | RequestFailed(e: ApiError, fallback: string)
    | LogoutAction
    | LoadUserAction(token: Option<string>, userText: Option<string>, parsed: Parsed)
    | UpdateUserOk(u: User)
    | ClearErrorAction

  function Apply(s: State, a: Action): State {
    match a
    case LoginOk(r) => SignedIn(s, r)
    case RequestFailed(e, fallback) => Rejected(s, e, fallback)
    case LogoutAction => SignedOut(s)
    case LoadUserAction(t, u, p) => Loaded(s, t, u, p)
    case UpdateUserOk(u) => s.(user := Some(u), isLoading := false, error := None)
    case ClearErrorAction => s.(error := None)
  }

  function Run(s: State, actions: seq<Action>): State
    decreases |actions|
  {
    if |actions| == 0 then s else Run(Apply(s, actions[0]), actions[1..])
  }

  /** Every action keeps the session invariant, so every run of them does. */
  lemma {:induction false} RunKeepsSession(s: State, actions: seq<Action>)
    requires SessionConsistent(s)
    ensures SessionConsistent(Run(s, actions))
    decreases |actions|
  {
    if |actions| > 0 {
      RunKeepsSession(Apply(s, actions[0]), actions[1..]);
    }
  }

  /** Every reachable state of the store is consistent. */
  lemma ReachableStatesConsistent(actions: seq<Action>)
    ensures SessionConsistent(Run(InitialState, actions))
  {
    RunKeepsSession(InitialState, actions);
  }
}
