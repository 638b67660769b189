/**
 * The client's authentication state: the reducer over
 * `{user, isAuthenticated, loading, error}`, and the provider whose `login`,
 * `signup`, `logout` and session checks issue sequences of dispatches and
 * read or write the stored token. The identity provider's and the backend's
 * answers are inputs.
 */
module AuthContext {
  import opened Js
  import Api

  datatype User = User(id: string, email: string, role: string)

  datatype AuthState = AuthState(user: Option<User>, isAuthenticated: bool, loading: bool, error: Option<string>)

  datatype Action =
    | SetUser(payload: Option<User>)
    | SetLoading(on: bool)
    | SetError(message: string)
    | ClearError
    | Unknown(kind: string)

  /** The reducer's initial state: nobody signed in, the session check still pending. */
  const Initial := AuthState(None, false, true, None)

  /** The flag and the user agree. */
  predicate Consistent(s: AuthState) {
    s.isAuthenticated == s.user.Some?
  }

  /** `authReducer`. */
  function Reduce(s: AuthState, a: Action): (r: AuthState)
    ensures a.SetUser? ==>
      r.user == a.payload && r.isAuthenticated == a.payload.Some? && !r.loading && r.error == s.error
    ensures a.SetLoading? ==> r == s.(loading := a.on)
    ensures a.SetError? ==>
      r.error == Some(a.message) && !r.loading && r.user == s.user && r.isAuthenticated == s.isAuthenticated
    ensures a.ClearError? ==> r == s.(error := None)
    ensures a.Unknown? ==> r == s
    ensures Consistent(s) || a.SetUser? ==> Consistent(r)
  {
    match a
    case SetUser(payload) => s.(user := payload, isAuthenticated := payload.Some?, loading := false)
    case SetLoading(on) => s.(loading := on)
    case SetError(message) => s.(error := Some(message), loading := false)
    case ClearError => s.(error := None)
    case Unknown(_) => s
  }

  /** The state after dispatching `actions` in order. */
  function Run(s: AuthState, actions: seq<Action>): (r: AuthState)
    ensures Consistent(s) ==> Consistent(r)
    decreases |actions|
  {
    if actions == [] then s else Run(Reduce(s, actions[0]), actions[1..])
  }

  /** The initial state is consistent, so every state the reducer reaches from it is. */
  lemma ReachableConsistent(actions: seq<Action>)
    ensures Consistent(Run(Initial, actions))
  {
  }

  lemma {:induction false} RunAppend(s: AuthState, xs: seq<Action>, ys: seq<Action>)
    ensures Run(s, xs + ys) == Run(Run(s, xs), ys)
    decreases |xs|
  {
    if xs == [] {
      assert xs + ys == ys;
    } else {
      assert (xs + ys)[0] == xs[0];
      assert (xs + ys)[1..] == xs[1..] + ys;
      RunAppend(Reduce(s, xs[0]), xs[1..], ys);
    }
  }

  lemma RunOne(s: AuthState, a: Action)
    ensures Run(s, [a]) == Reduce(s, a)
  {
    assert [a][1..] == [];
  }

  lemma RunTwo(s: AuthState, a: Action, b: Action)
    ensures Run(s, [a, b]) == Reduce(Reduce(s, a), b)
  {
    assert [a, b][1..] == [b];
    RunOne(Reduce(s, a), b);
  }

  lemma RunThree(s: AuthState, a: Action, b: Action, c: Action)
    ensures Run(s, [a, b, c]) == Reduce(Reduce(Reduce(s, a), b), c)
  {
    assert [a, b, c][1..] == [b, c];
    RunTwo(Reduce(s, a), b, c);
  }

  lemma RunFour(s: AuthState, a: Action, b: Action, c: Action, d: Action)
    ensures Run(s, [a, b, c, d]) == Reduce(Reduce(Reduce(Reduce(s, a), b), c), d)
  {
    assert [a, b, c, d][1..] == [b, c, d];
    RunThree(Reduce(s, a), b, c, d);
  }

  // ---------------------------------------------------------------- answers from outside

  /** The identity provider's answer; a thrown error and a returned `{error}` look alike here. */
  datatype ProviderAnswer = Accepted | Refused(message: string)

  /** `authAPI.login`: the backend's `{user, token}`, or the error axios raised. */
  datatype BackendLogin =
    | Issued(user: User, token: string)
    | Rejected(responseMessage: MaybeString, message: MaybeString)

  /** `supabase.auth.getSession()`'s user, with `user_metadata?.role`. */
  datatype ProviderSession = ProviderSession(id: string, email: string, roleMetadata: MaybeString)

  /** `authAPI.getProfile()`. */
  datatype ProfileAnswer = Profile(user: User) | ProfileFailed

  /** What `login`, `signup` and `logout` return to their callers. */
  datatype AuthResult = Succeeded(user: Option<User>) | Failed(error: string)

  /** The user built from a provider session; a missing or empty role falls back to 'user'. */
  function FromSession(s: ProviderSession): (u: User)
    ensures u.id == s.id && u.email == s.email
    ensures !Truthy(s.roleMetadata) ==> u.role == Api.User
    ensures Truthy(s.roleMetadata) ==> u.role == s.roleMetadata.value
    ensures u.role != ""
  {
    User(s.id, s.email, Or(s.roleMetadata, Api.User))
  }

  /** `error.response?.data?.message || error.message || 'Login failed'`. */
  function LoginErrorMessage(responseMessage: MaybeString, message: MaybeString): (m: string)
    ensures m != ""
    ensures Truthy(responseMessage) ==> m == responseMessage.value
    ensures !Truthy(responseMessage) && Truthy(message) ==> m == message.value
    ensures !Truthy(responseMessage) && !Truthy(message) ==> m == "Login failed"
  {
    Or(responseMessage, Or(message, "Login failed"))
  }

  // ---------------------------------------------------------------- dispatch sequences

  /** The one dispatch between login's opening pair and its closing `SET_LOADING false`. */
  function LoginMiddle(signIn: ProviderAnswer, backend: BackendLogin): Action {
    match signIn
    case Refused(message) => SetError(message)
    case Accepted =>
      match backend
      case Issued(user, _) => SetUser(Some(user))
      case Rejected(rm, m) => SetError(LoginErrorMessage(rm, m))
  }

  /**
   * Login's dispatches: loading on, error cleared, then the user or the error
   * of the result login returns, and loading off.
   */
  function LoginActions(signIn: ProviderAnswer, backend: BackendLogin): (a: seq<Action>)
    ensures |a| == 4 && a[0] == SetLoading(true) && a[1] == ClearError && a[3] == SetLoading(false)
    ensures a[2] == AfterLogin(LoginResult(signIn, backend))
  {
    [SetLoading(true), ClearError, LoginMiddle(signIn, backend), SetLoading(false)]
  }

  /** What `login` returns: success only when the provider and the backend both accept. */
  function LoginResult(signIn: ProviderAnswer, backend: BackendLogin): (r: AuthResult)
    ensures r.Succeeded? <==> signIn.Accepted? && backend.Issued?
    ensures r.Succeeded? ==> r.user == Some(backend.user)
    ensures signIn.Refused? ==> r == Failed(signIn.message)
    ensures signIn.Accepted? && backend.Rejected? ==>
      r == Failed(LoginErrorMessage(backend.responseMessage, backend.message))
  {
    match signIn
    case Refused(message) => Failed(message)
    case Accepted =>
      match backend
      case Issued(user, _) => Succeeded(Some(user))
      case Rejected(rm, m) => Failed(LoginErrorMessage(rm, m))
  }

  /**
   * After login's dispatches, loading is off; on success the user is set and
   * the error cleared, on failure the error is the message returned and the
   * user is what it was.
   */
  lemma LoginFinalState(s: AuthState, signIn: ProviderAnswer, backend: BackendLogin)
    ensures var r := Run(s, LoginActions(signIn, backend));
            var result := LoginResult(signIn, backend);
      && !r.loading
      && (result.Succeeded? ==> r.user == result.user && r.user.Some? && r.isAuthenticated && r.error == None)
      && (result.Failed? ==> r.error == Some(result.error) && r.user == s.user && r.isAuthenticated == s.isAuthenticated)
  {
    var middle := LoginMiddle(signIn, backend);
    assert LoginActions(signIn, backend) == [SetLoading(true), ClearError, middle, SetLoading(false)];
    RunFour(s, SetLoading(true), ClearError, middle, SetLoading(false));
  }

  /** What signup dispatches once login has returned: the user it got, or its error. */
  function AfterLogin(result: AuthResult): Action {
    match result
    case Succeeded(user) => SetUser(user)
    case Failed(error) => SetError(error)
  }

  /**
   * Signup's dispatches: its own opening pair and closing `SET_LOADING false`
   * around either the provider's error or login's whole sequence followed by
   * what login returned.
   */
  function SignupActions(signUp: ProviderAnswer, signIn: ProviderAnswer, backend: BackendLogin): (a: seq<Action>)
    ensures |a| >= 4 && a[0] == SetLoading(true) && a[1] == ClearError && a[|a| - 1] == SetLoading(false)
    ensures signUp.Refused? ==> |a| == 4 && a[2] == SetError(signUp.message)
    ensures signUp.Accepted? ==>
      |a| == 8 && a[2..6] == LoginActions(signIn, backend) && a[6] == AfterLogin(LoginResult(signIn, backend))
  {
    match signUp
    case Refused(message) => [SetLoading(true), ClearError, SetError(message), SetLoading(false)]
    case Accepted =>
      [SetLoading(true), ClearError] + LoginActions(signIn, backend)
      + [AfterLogin(LoginResult(signIn, backend)), SetLoading(false)]
  }

  /** What `signup` returns: success only when sign-up, sign-in and the backend login all succeed. */
  function SignupResult(signUp: ProviderAnswer, signIn: ProviderAnswer, backend: BackendLogin): (r: AuthResult)
    ensures r.Succeeded? <==> signUp.Accepted? && signIn.Accepted? && backend.Issued?
    ensures signUp.Refused? ==> r == Failed(signUp.message)
    ensures signUp.Accepted? ==> r == LoginResult(signIn, backend)
  {
    match signUp
    case Refused(message) => Failed(message)
    case Accepted => LoginResult(signIn, backend)
  }

  /** Sign-up refused: the provider's message is the error. Accepted: it ends as the login it runs ends. */
  lemma SignupFinalState(s: AuthState, signUp: ProviderAnswer, signIn: ProviderAnswer, backend: BackendLogin)
    ensures var r := Run(s, SignupActions(signUp, signIn, backend));
            var result := SignupResult(signUp, signIn, backend);
      && !r.loading
      && (result.Succeeded? ==> r.user == result.user && r.isAuthenticated && r.error == None)
      && (result.Failed? ==> r.error == Some(result.error) && r.user == s.user)
  {
    match signUp
    case Refused(message) =>
      RunFour(s, SetLoading(true), ClearError, SetError(message), SetLoading(false));
    case Accepted =>
      SignupAcceptedRun(s, signIn, backend);
      LoginFinalState(Reduce(Reduce(s, SetLoading(true)), ClearError), signIn, backend);
  }

  /**
   * An accepted sign-up's dispatches, folded: the opening pair, then login's
   * own four, then what login returned, then `SET_LOADING false`.
   */
  lemma SignupAcceptedRun(s: AuthState, signIn: ProviderAnswer, backend: BackendLogin)
    ensures var login := Run(Reduce(Reduce(s, SetLoading(true)), ClearError), LoginActions(signIn, backend));
      Run(s, SignupActions(Accepted, signIn, backend))
        == Reduce(Reduce(login, AfterLogin(LoginResult(signIn, backend))), SetLoading(false))
  {
    var login := LoginActions(signIn, backend);
    var last := AfterLogin(LoginResult(signIn, backend));
    RunAppend(s, [SetLoading(true), ClearError] + login, [last, SetLoading(false)]);
    RunAppend(s, [SetLoading(true), ClearError], login);
    RunTwo(s, SetLoading(true), ClearError);
    RunTwo(Run(Reduce(Reduce(s, SetLoading(true)), ClearError), login), last, SetLoading(false));
  }

  function LogoutMiddle(signOut: ProviderAnswer): Action {
    match signOut
    case Refused(message) => SetError(message)
    case Accepted => SetUser(None)
  }

  /** Logout's dispatches: loading on, the sign-out's outcome, loading off; the error is not cleared first. */
  function LogoutActions(signOut: ProviderAnswer): (a: seq<Action>)
    ensures |a| == 3 && a[0] == SetLoading(true) && a[2] == SetLoading(false)
    ensures a[1] == if signOut.Accepted? then SetUser(None) else SetError(signOut.message)
  {
    [SetLoading(true), LogoutMiddle(signOut), SetLoading(false)]
  }

  /** After logout's dispatches, loading is off; on success nobody is signed in, on failure the user stays. */
  lemma LogoutFinalState(s: AuthState, signOut: ProviderAnswer)
    ensures var r := Run(s, LogoutActions(signOut));
      && !r.loading
      && (signOut.Accepted? ==> r.user == None && !r.isAuthenticated && r.error == s.error)
      && (signOut.Refused? ==> r.error == Some(signOut.message) && r.user == s.user)
  {
    RunThree(s, SetLoading(true), LogoutMiddle(signOut), SetLoading(false));
  }

  /**
   * The user `checkSession` dispatches: nobody without a session; the backend
   * profile when a token is stored and the profile call succeeds; otherwise
   * the user built from the session.
   */
  function SessionCheckUser(session: Option<ProviderSession>, token: MaybeString,
                            profile: ProfileAnswer): (u: Option<User>)
    ensures session.None? ==> u.None?
    ensures session.Some? ==> u.Some?
    ensures session.Some? && (!Truthy(token) || profile.ProfileFailed?) ==>
      u == Some(FromSession(session.value))
    ensures session.Some? && Truthy(token) && profile.Profile? ==> u == Some(profile.user)
  {
    match session
    case None => None
    case Some(ps) =>
      if Truthy(token) then
        match profile
        case Profile(user) => Some(user)
        case ProfileFailed => Some(FromSession(ps))
      else Some(FromSession(ps))
  }

  // ---------------------------------------------------------------- the provider

  /**
   * After the session check's one dispatch, loading is over, the client is
   * authenticated iff a session exists, and an earlier error is kept.
   */
  lemma SessionCheckFinalState(s: AuthState, session: Option<ProviderSession>, token: MaybeString,
                               profile: ProfileAnswer)
    ensures var r := Reduce(s, SetUser(SessionCheckUser(session, token, profile)));
      && Consistent(r) && !r.loading && r.error == s.error
      && (r.isAuthenticated <==> session.Some?)
      && (session.Some? && Truthy(token) && profile.Profile? ==> r.user == Some(profile.user))
  {
  }

  class AuthProvider {
    var state: AuthState
    /** `localStorage.getItem('token')`. */
    var storedToken: MaybeString
    /** Every action dispatched since the provider mounted. */
    ghost var dispatched: seq<Action>

    ghost predicate Valid()
      reads this
    {
      Consistent(state)
    }

    constructor (token: MaybeString)
      ensures Valid() && state == Initial && dispatched == [] && storedToken == token
    {
      state := Initial;
      storedToken := token;
      dispatched := [];
    }

    method Dispatch(a: Action)
      requires Valid()
      modifies this
      ensures Valid()
      ensures state == Reduce(old(state), a) && dispatched == old(dispatched) + [a]
      ensures storedToken == old(storedToken)
    {
      state := Reduce(state, a);
      dispatched := dispatched + [a];
    }

    /** `login(email, password)`. */
    method Login(signIn: ProviderAnswer, backend: BackendLogin) returns (result: AuthResult)
      requires Valid()
      modifies this
      ensures Valid()
      ensures result == LoginResult(signIn, backend)
      ensures dispatched == old(dispatched) + LoginActions(signIn, backend)
      ensures state == Run(old(state), LoginActions(signIn, backend))
      ensures storedToken == if result.Succeeded? then Some(backend.token) else old(storedToken)
    {
      Dispatch(SetLoading(true));
      Dispatch(ClearError);
      match signIn {
        case Refused(message) =>
          Dispatch(SetError(message));
          result := Failed(message);
        case Accepted =>
          match backend {
            case Issued(user, token) =>
              storedToken := Some(token);
              Dispatch(SetUser(Some(user)));
              result := Succeeded(Some(user));
            case Rejected(rm, m) =>
              var errorMessage := LoginErrorMessage(rm, m);
              Dispatch(SetError(errorMessage));
              result := Failed(errorMessage);
          }
      }
      Dispatch(SetLoading(false));
      RunFour(old(state), SetLoading(true), ClearError, LoginMiddle(signIn, backend), SetLoading(false));
    }

    /** `signup(email, password)`: sign up, then log in. */
    method Signup(signUp: ProviderAnswer, signIn: ProviderAnswer, backend: BackendLogin)
      returns (result: AuthResult)
      requires Valid()
      modifies this
      ensures Valid()
      ensures result == SignupResult(signUp, signIn, backend)
      ensures dispatched == old(dispatched) + SignupActions(signUp, signIn, backend)
      ensures state == Run(old(state), SignupActions(signUp, signIn, backend))
      ensures storedToken == if result.Succeeded? then Some(backend.token) else old(storedToken)
    {
      Dispatch(SetLoading(true));
      Dispatch(ClearError);
      match signUp {
        case Refused(message) =>
          Dispatch(SetError(message));
          result := Failed(message);
          Dispatch(SetLoading(false));
          RunFour(old(state), SetLoading(true), ClearError, SetError(message), SetLoading(false));
        case Accepted =>
          var loginResult := Login(signIn, backend);
          if loginResult.Succeeded? {
            Dispatch(SetUser(loginResult.user));
          } else {
            Dispatch(SetError(loginResult.error));
          }
          result := loginResult;
          Dispatch(SetLoading(false));
          SignupAcceptedRun(old(state), signIn, backend);
      }
    }

    /** `logout()`: the stored token is removed before the provider is asked, so it is gone either way. */
    method Logout(signOut: ProviderAnswer) returns (result: AuthResult)
      requires Valid()
      modifies this
      ensures Valid()
      ensures storedToken == None
      ensures result == if signOut.Accepted? then Succeeded(None) else Failed(signOut.message)
      ensures dispatched == old(dispatched) + LogoutActions(signOut)
      ensures state == Run(old(state), LogoutActions(signOut))
    {
      Dispatch(SetLoading(true));
      storedToken := None;
      match signOut {
        case Refused(message) =>
          Dispatch(SetError(message));
          result := Failed(message);
        case Accepted =>
          Dispatch(SetUser(None));
          result := Succeeded(None);
      }
      Dispatch(SetLoading(false));
      RunThree(old(state), SetLoading(true), LogoutMiddle(signOut), SetLoading(false));
    }

    /** `checkSession()` on mount. */
    method CheckSession(session: Option<ProviderSession>, profile: ProfileAnswer)
      requires Valid()
      modifies this
      ensures Valid()
      ensures dispatched == old(dispatched) + [SetUser(SessionCheckUser(session, old(storedToken), profile))]
      ensures state == Reduce(old(state), SetUser(SessionCheckUser(session, old(storedToken), profile)))
      ensures storedToken == old(storedToken)
    {
      if session.Some? {
        if Truthy(storedToken) {
          match profile {
            case Profile(user) => Dispatch(SetUser(Some(user)));
            case ProfileFailed => Dispatch(SetUser(Some(FromSession(session.value))));
          }
        } else {
          Dispatch(SetUser(Some(FromSession(session.value))));
        }
      } else {
        Dispatch(SetUser(None));
      }
    }

    /** The `onAuthStateChange` listener. */
    method OnAuthStateChange(session: Option<ProviderSession>)
      requires Valid()
      modifies this
      ensures Valid()
      ensures dispatched == old(dispatched) + [SetUser(if session.Some? then Some(FromSession(session.value)) else None)]
      ensures state == Reduce(old(state), SetUser(if session.Some? then Some(FromSession(session.value)) else None))
      ensures storedToken == old(storedToken)
    {
      if session.Some? {
        Dispatch(SetUser(Some(FromSession(session.value))));
      } else {
        Dispatch(SetUser(None));
      }
    }
  }
}
