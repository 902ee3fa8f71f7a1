/**
  The client's session record and the pure transition function that is the
  only way it changes (`authReducer`).
 */
module AuthReducer {
  import opened Wrappers

  datatype User = User(username: string, email: string)

  /** The session record; `None` stands for the source's `null`. */
  datatype AuthState = AuthState(
    user: Option<User>,
    token: Option<string>,
    isAuthenticated: bool,
    isLoading: bool,
    error: Option<string>)

  /** The five action kinds. `clearError` sends a failure whose payload is null. */
  datatype Action =
    | LoginRequest
    | LoginSuccess(user: User, token: string)
    | LoginFailure(message: Option<string>)
    | Logout
    | UpdateUser(user: User)

  const InitialState: AuthState := AuthState(None, None, false, false, None)

  /** The documented session invariant: authenticated exactly when a user and a token are held. */
  predicate Coherent(s: AuthState) {
    s.isAuthenticated <==> s.user.Some? && s.token.Some?
  }

  /**
    The invariant every reachable state keeps: coherent, and a token is never
    held without a user. The second half is what makes UPDATE_USER safe.
   */
  predicate SessionInv(s: AuthState) {
    Coherent(s) && (s.token.Some? ==> s.user.Some?)
  }

  /** One transition of the session state machine. */
  function Reduce(s: AuthState, a: Action): (r: AuthState)
    ensures a.LoginSuccess? || a.LoginFailure? || a.Logout? ==> Coherent(r)
    ensures a.UpdateUser? && s.user.Some? && Coherent(s) ==> Coherent(r)
    ensures SessionInv(s) ==> SessionInv(r)
  {
    match a
    case LoginRequest => s.(isLoading := true, error := None)
    case LoginSuccess(u, t) =>
      s.(isLoading := false, isAuthenticated := true, user := Some(u), token := Some(t), error := None)
    case LoginFailure(m) =>
      s.(isLoading := false, isAuthenticated := false, user := None, token := None, error := m)
    case Logout => s.(isAuthenticated := false, user := None, token := None)
    case UpdateUser(u) => s.(user := Some(u))
  }

  /** LOGIN_REQUEST starts loading and clears the error, and keeps the session itself. */
  lemma LoginRequestKeepsSession(s: AuthState)
    ensures var r := Reduce(s, LoginRequest);
      r.isLoading && r.error.None? &&
      r.user == s.user && r.token == s.token && r.isAuthenticated == s.isAuthenticated
  {
  }

  /** LOGIN_SUCCESS installs exactly the given user and token, whatever came before. */
  lemma LoginSuccessInstalls(s: AuthState, u: User, t: string)
    ensures Reduce(s, LoginSuccess(u, t)) == AuthState(Some(u), Some(t), true, false, None)
  {
  }

  /** LOGIN_FAILURE leaves no session behind and records the message. */
  lemma LoginFailureClears(s: AuthState, m: Option<string>)
    ensures Reduce(s, LoginFailure(m)) == AuthState(None, None, false, false, m)
  {
  }

  /** LOGOUT empties the session but leaves the loading flag and the error alone. */
  lemma LogoutKeepsStatus(s: AuthState)
    ensures Reduce(s, Logout) == AuthState(None, None, false, s.isLoading, s.error)
  {
  }

  /** UPDATE_USER changes the user and nothing else. */
  lemma UpdateUserOnlyUser(s: AuthState, u: User)
    ensures var r := Reduce(s, UpdateUser(u));
      r.user == Some(u) && r.token == s.token && r.isAuthenticated == s.isAuthenticated &&
      r.isLoading == s.isLoading && r.error == s.error
  {
  }

  /**
    From a coherent state, UPDATE_USER ends coherent exactly unless the state
    held a token without a user.
   */
  lemma UpdateUserCoherence(s: AuthState, u: User)
    requires Coherent(s)
    ensures Coherent(Reduce(s, UpdateUser(u))) <==> !(s.user.None? && s.token.Some?)
  {
  }

  /**
    Coherence alone is not preserved by UPDATE_USER: a coherent state with a
    token but no user becomes incoherent. (Such a state is not reachable; see
    ReachableStatesCoherent.)
   */
  lemma UpdateUserNeedsPriorUser()
    ensures exists s: AuthState, u: User :: Coherent(s) && !Coherent(Reduce(s, UpdateUser(u)))
  {
    var s := AuthState(None, Some("t"), false, false, None);
    var u := User("a", "a@x.com");
    assert Coherent(s) && !Coherent(Reduce(s, UpdateUser(u)));
  }

  /** The state after applying a sequence of actions in order. */
  function Replay(s: AuthState, actions: seq<Action>): AuthState
    decreases |actions|
  {
    if actions == [] then s else Replay(Reduce(s, actions[0]), actions[1..])
  }

  /** Every action sequence keeps the session invariant. */
  lemma {:induction false} ReplayKeepsInv(s: AuthState, actions: seq<Action>)
    requires SessionInv(s)
    ensures SessionInv(Replay(s, actions))
    decreases |actions|
  {
    if actions != [] {
      ReplayKeepsInv(Reduce(s, actions[0]), actions[1..]);
    }
  }

  /** From the initial state, every sequence of transitions ends in a coherent session. */
  lemma ReachableStatesCoherent(actions: seq<Action>)
    ensures Coherent(Replay(InitialState, actions))
    ensures var r := Replay(InitialState, actions); r.token.Some? ==> r.user.Some?
  {
    ReplayKeepsInv(InitialState, actions);
  }
}
