/** The session state of `src/contexts/AuthContext.js`: the reducer over
    `{user, isAuthenticated, loading, error}`, the role predicates, and the
    provider's operations (start-up from a stored token, login, register,
    logout, clearError) with the authentication gateway's answers passed in
    as parameters. */
module AuthContext {
  import opened Common

  /** A user object as the provider stores it: a profile from the gateway,
      or one of the two fallbacks built from a token. `admin` is true only
      when the object's `admin` field is the boolean `true`. */
  datatype User = User(
    id: Option<string>,
    email: Option<string>,
    name: Option<string>,
    role: Option<string>,
    admin: bool,
    token: Option<string>)

  datatype AuthState = AuthState(
    user: Option<User>,
    isAuthenticated: bool,
    loading: bool,
    error: Option<string>)

  /** Loading until the start-up check has run. */
  const InitialAuth: AuthState := AuthState(None, false, true, None)

  const AdminRole := "admin"
  const UserRole := "user"
  const ManagerRole := "manager"

  datatype AuthAction =
    | LoginStart
    | LoginSuccess(user: User)
    | LoginFailure(message: string)
    | Logout
    | RegisterStart
    | RegisterSuccess
    | RegisterFailure(message: string)
    | SetLoading(on: bool)
    | ClearError
    | SetUser(payload: Option<User>)
    | Unrecognised(kind: string)

  /** What an awaited gateway call resolved to, or the message it threw. */
  datatype Attempt<T> = Resolved(value: T) | Rejected(message: string)

  /** The `{token}` field of a login response (`None` when missing). */
  datatype LoginResponse = LoginResponse(token: Option<string>)

  /** `{success: true, data}` or `{success: false, error}`. */
  datatype AuthResult<T> = Success(data: T) | Failure(error: string)

  /** The calls the provider makes to the authentication gateway. */
  datatype AuthCall = FetchProfile | SignIn(email: string, password: string) | SignUp | SignOut

  /** The user is present exactly when the session is authenticated. */
  predicate Consistent(s: AuthState) {
    s.isAuthenticated <==> s.user.Some?
  }

  /** `authReducer`. */
  function AuthReduce(s: AuthState, a: AuthAction): (r: AuthState)
    ensures (a.LoginStart? || a.RegisterStart?) ==>
      r.loading && r.error == None && r.user == s.user && r.isAuthenticated == s.isAuthenticated
    ensures a.LoginSuccess? ==>
      r.user == Some(a.user) && r.isAuthenticated && !r.loading && r.error == None
    ensures (a.LoginFailure? || a.RegisterFailure?) ==>
      r.user == None && !r.isAuthenticated && !r.loading && r.error == Some(a.message)
    ensures a.RegisterSuccess? ==>
      r.user == s.user && r.isAuthenticated == s.isAuthenticated && !r.loading && r.error == None
    ensures a.Logout? ==> r == AuthState(None, false, false, None)
    ensures a.SetLoading? ==>
      r.loading == a.on && r.user == s.user && r.isAuthenticated == s.isAuthenticated && r.error == s.error
    ensures a.SetUser? ==>
      r.user == a.payload && (r.isAuthenticated <==> a.payload.Some?) && !r.loading && r.error == s.error
    ensures a.ClearError? ==> r == s.(error := None)
    ensures a.Unrecognised? ==> r == s
    ensures Consistent(s) ==> Consistent(r)
  {
    match a
    case LoginStart => s.(loading := true, error := None)
    case RegisterStart => s.(loading := true, error := None)
    case LoginSuccess(u) => s.(user := Some(u), isAuthenticated := true, loading := false, error := None)
    case LoginFailure(m) => s.(user := None, isAuthenticated := false, loading := false, error := Some(m))
    case RegisterFailure(m) => s.(user := None, isAuthenticated := false, loading := false, error := Some(m))
    case RegisterSuccess => s.(loading := false, error := None)
    case Logout => s.(user := None, isAuthenticated := false, loading := false, error := None)
    case SetLoading(on) => s.(loading := on)
    case SetUser(p) => s.(user := p, isAuthenticated := p.Some?, loading := false)
    case ClearError => s.(error := None)
    case Unrecognised(_) => s
  }

  /** The reducer applied to a sequence of dispatched actions, in order. */
  function AuthReduceAll(s: AuthState, acts: seq<AuthAction>): AuthState
    decreases |acts|
  {
    if acts == [] then s else AuthReduceAll(AuthReduce(s, acts[0]), acts[1..])
  }

  /** No sequence of dispatches can separate `isAuthenticated` from the
      presence of a user. */
  lemma {:induction false} ConsistentUnderAllActions(s: AuthState, acts: seq<AuthAction>)
    requires Consistent(s)
    ensures Consistent(AuthReduceAll(s, acts))
    decreases |acts|
  {
    if acts != [] {
      ConsistentUnderAllActions(AuthReduce(s, acts[0]), acts[1..]);
    }
  }

  // ------------------------------------------------------------ roles

  /** `hasRole(role)`: `user?.role === role`. */
  predicate HasRole(user: Option<User>, role: string) {
    user.Some? && user.value.role == Some(role)
  }

  /** `isAdmin()`: role `'admin'` or the `admin` flag. */
  predicate IsAdmin(user: Option<User>) {
    HasRole(user, AdminRole) || (user.Some? && user.value.admin)
  }

  /** `isManager()`. */
  predicate IsManager(user: Option<User>) {
    HasRole(user, ManagerRole)
  }

  /** `canAccessAdmin()`. */
  predicate CanAccessAdmin(user: Option<User>) {
    IsAdmin(user) || IsManager(user)
  }

  /** Admin-area access in terms of the user's fields alone. */
  lemma CanAccessAdminIff(user: Option<User>)
    ensures CanAccessAdmin(user) <==>
      user.Some? && (user.value.admin || user.value.role == Some(AdminRole) || user.value.role == Some(ManagerRole))
  {
  }

  /** With no user every role predicate is false. */
  lemma NoUserNoRole(role: string)
    ensures !HasRole(None, role) && !IsAdmin(None) && !IsManager(None) && !CanAccessAdmin(None)
  {
  }

  /** The `{token}` fallback user of start-up. */
  function TokenUser(token: string): (u: User)
    ensures u.token == Some(token) && u.role == None && !u.admin
  {
    User(None, None, None, None, false, Some(token))
  }

  /** The `{email, token}` fallback user of login. */
  function CredentialUser(email: string, token: Option<string>): (u: User)
    ensures u.email == Some(email) && u.token == token && u.role == None && !u.admin
  {
    User(None, Some(email), None, None, false, token)
  }

  /** A fallback user is authenticated but never holds a role, so it never
      reaches the admin area. */
  lemma FallbackUsersHaveNoRole(token: string, email: string, t: Option<string>, role: string)
    ensures !HasRole(Some(TokenUser(token)), role) && !CanAccessAdmin(Some(TokenUser(token)))
    ensures !HasRole(Some(CredentialUser(email, t)), role) && !CanAccessAdmin(Some(CredentialUser(email, t)))
  {
  }

  // ------------------------------------------------- operation effects

  /** `initializeAuth`: with a stored token (the empty string counts as
      none) the profile, or the `{token}` fallback, becomes the user. The
      profile is `None` when `getCurrentUser` failed or returned null. */
  function InitEffect(s: AuthState, token: string, profile: Option<User>): (r: AuthState)
    ensures token == "" ==> r == s.(loading := false)
    ensures token != "" ==> r.isAuthenticated && !r.loading && r.user == Some(profile.GetOr(TokenUser(token)))
    ensures r.error == s.error
    ensures Consistent(s) ==> Consistent(r)
  {
    var loading := AuthReduce(s, SetLoading(true));
    if token != "" then AuthReduce(loading, SetUser(Some(profile.GetOr(TokenUser(token)))))
    else AuthReduce(loading, SetLoading(false))
  }

  /** From the initial state: no token ends unauthenticated and not loading;
      a token ends authenticated even when the profile fetch failed. */
  lemma InitOutcomes(token: string, profile: Option<User>)
    ensures token == "" ==> var r := InitEffect(InitialAuth, token, profile); !r.loading && !r.isAuthenticated && r.user == None
    ensures token != "" && profile.None? ==> InitEffect(InitialAuth, token, profile).user == Some(TokenUser(token))
  {
  }

  /** The user `login` stores once the credentials were accepted. */
  function LoginUser(email: string, response: LoginResponse, profile: Option<User>): User {
    profile.GetOr(CredentialUser(email, response.token))
  }

  function LoginEffect(s: AuthState, email: string, outcome: Attempt<LoginResponse>, profile: Option<User>): (r: AuthState)
    ensures outcome.Resolved? ==>
      r.isAuthenticated && !r.loading && r.error == None
      && r.user == Some(LoginUser(email, outcome.value, profile))
    ensures outcome.Rejected? ==>
      r.user == None && !r.isAuthenticated && !r.loading && r.error == Some(outcome.message)
    ensures Consistent(r)
  {
    var started := AuthReduce(s, LoginStart);
    match outcome
    case Resolved(response) => AuthReduce(started, LoginSuccess(LoginUser(email, response, profile)))
    case Rejected(m) => AuthReduce(started, LoginFailure(m))
  }

  /** The result object `login` and `register` return: neither throws, and
      both wrap the gateway's answer or its error message. */
  function AttemptResult<T>(outcome: Attempt<T>): (res: AuthResult<T>)
    ensures res.Success? <==> outcome.Resolved?
    ensures outcome.Resolved? ==> res.data == outcome.value
    ensures outcome.Rejected? ==> res.error == outcome.message
  {
    match outcome
    case Resolved(response) => Success(response)
    case Rejected(m) => Failure(m)
  }

  function RegisterEffect<T>(s: AuthState, outcome: Attempt<T>): (r: AuthState)
    ensures outcome.Resolved? ==>
      r.user == s.user && r.isAuthenticated == s.isAuthenticated && !r.loading && r.error == None
    ensures outcome.Rejected? ==>
      r.user == None && !r.isAuthenticated && !r.loading && r.error == Some(outcome.message)
    ensures Consistent(s) ==> Consistent(r)
  {
    var started := AuthReduce(s, RegisterStart);
    match outcome
    case Resolved(_) => AuthReduce(started, RegisterSuccess)
    case Rejected(m) => AuthReduce(started, RegisterFailure(m))
  }

  /** Registering signs nobody in: an anonymous session stays anonymous
      whatever the gateway says. */
  lemma RegisterDoesNotLogIn<T>(s: AuthState, outcome: Attempt<T>)
    requires !s.isAuthenticated
    ensures !RegisterEffect(s, outcome).isAuthenticated
  {
  }

  // ------------------------------------------------------------- store

  /** The `AuthProvider`'s state cell and its operations. */
  class AuthStore {
    var user: Option<User>
    var isAuthenticated: bool
    var loading: bool
    var error: Option<string>

    function State(): AuthState
      reads this
    {
      AuthState(user, isAuthenticated, loading, error)
    }

    ghost predicate Valid()
      reads this
    {
      Consistent(State())
    }

    constructor ()
      ensures Valid() && State() == InitialAuth
    {
      user, isAuthenticated, loading, error := None, false, true, None;
    }

    method Dispatch(a: AuthAction)
      requires Valid()
      modifies this
      ensures Valid()
      ensures State() == AuthReduce(old(State()), a)
    {
      var r := AuthReduce(State(), a);
      user, isAuthenticated, loading, error := r.user, r.isAuthenticated, r.loading, r.error;
    }

    /** `initializeAuth`; `token` is what `getToken()` read ("" for none)
        and `profile` what `getUserData()` returned. */
    method Initialize(token: string, profile: Option<User>) returns (calls: seq<AuthCall>)
      requires Valid()
      modifies this
      ensures Valid()
      ensures State() == InitEffect(old(State()), token, profile)
      ensures calls == (if token != "" then [FetchProfile] else [])
    {
      Dispatch(SetLoading(true));
      if token != "" {
        calls := [FetchProfile];
        var userData := profile.GetOr(TokenUser(token));
        Dispatch(SetUser(Some(userData)));
      } else {
        calls := [];
        Dispatch(SetLoading(false));
      }
    }

    /** `login(email, password)`; the profile is fetched only after the
        credentials were accepted. */
    method Login(email: string, password: string, outcome: Attempt<LoginResponse>, profile: Option<User>)
      returns (result: AuthResult<LoginResponse>, calls: seq<AuthCall>)
      requires Valid()
      modifies this
      ensures Valid()
      ensures State() == LoginEffect(old(State()), email, outcome, profile)
      ensures result == AttemptResult(outcome)
      ensures calls == [SignIn(email, password)] + (if outcome.Resolved? then [FetchProfile] else [])
    {
      Dispatch(LoginStart);
      calls := [SignIn(email, password)];
      match outcome {
        case Resolved(response) =>
          calls := calls + [FetchProfile];
          var userData := profile.GetOr(CredentialUser(email, response.token));
          Dispatch(LoginSuccess(userData));
          result := Success(response);
        case Rejected(m) =>
          Dispatch(LoginFailure(m));
          result := Failure(m);
      }
    }

    /** `register(userData)`. */
    method Register<T>(outcome: Attempt<T>) returns (result: AuthResult<T>, calls: seq<AuthCall>)
      requires Valid()
      modifies this
      ensures Valid()
      ensures State() == RegisterEffect(old(State()), outcome)
      ensures result == AttemptResult(outcome)
      ensures calls == [SignUp]
    {
      Dispatch(RegisterStart);
      calls := [SignUp];
      match outcome {
        case Resolved(response) =>
          Dispatch(RegisterSuccess);
          result := Success(response);
        case Rejected(m) =>
          Dispatch(RegisterFailure(m));
          result := Failure(m);
      }
    }

    /** `logout`: drop the stored token, then forget the user. */
    method SignOutUser() returns (calls: seq<AuthCall>)
      requires Valid()
      modifies this
      ensures Valid()
      ensures State() == AuthState(None, false, false, None)
      ensures calls == [SignOut]
    {
      calls := [SignOut];
      Dispatch(Logout);
    }

    /** `clearError`. */
    method ClearErrorMessage()
      requires Valid()
      modifies this
      ensures Valid()
      ensures State() == old(State()).(error := None)
    {
      Dispatch(ClearError);
    }
  }
}
