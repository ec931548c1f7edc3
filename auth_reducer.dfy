/**
 * The client's login state (CapstoneFrontend/src/redux/reducers.js): a
 * reducer over four action types. `null` is `None`; the decoded user
 * payload is kept as its text.
 */
module AuthReducer {
  import opened Wrappers

  datatype AuthState = AuthState(
    token: Option<string>,
    user: Option<string>,
    error: Option<string>,
    serviceProviderId: Option<string>)

  /**
   * A dispatched action: the four types the switch handles, and `Other`
   * for a type outside them (a type string naming one of the four is
   * written with its own constructor, never as `Other`).
   */
  datatype Action =
    | LoginSuccess(token: Option<string>, user: Option<string>, serviceProviderId: Option<string>)
    | LoginFailure(message: Option<string>)
    | ClearError
    | Logout
    | Other(actionType: string)

  /** The state before any action: everything null. */
  function Initial(): (s: AuthState)
    ensures s.token == None && s.user == None && s.error == None && s.serviceProviderId == None
  {
    AuthState(None, None, None, None)
  }

  /** `authReducer`: one `switch` on the action type. */
  function Reduce(state: AuthState, action: Action): (r: AuthState)
    ensures !TouchesSession(action) ==>
              r.token == state.token && r.user == state.user && r.serviceProviderId == state.serviceProviderId
    ensures !TouchesError(action) ==> r.error == state.error
    ensures action.Logout? ==> r.token == None && r.user == None && r.serviceProviderId == None
    ensures action.Other? ==> r == state
  {
    match action
    case LoginSuccess(t, u, p) => state.(token := t, user := u, serviceProviderId := p, error := None)
    case LoginFailure(m) => state.(error := m)
    case ClearError => state.(error := None)
    case Logout => state.(token := None, user := None, serviceProviderId := None)
    case Other(_) => state
  }

  /** `authReducer(state = initialState, action)`: an undefined state starts from the initial one. */
  function ReduceDefault(state: Option<AuthState>, action: Action): (r: AuthState)
    ensures state.None? ==> r == Reduce(Initial(), action)
    ensures state.Some? ==> r == Reduce(state.value, action)
  {
    Reduce(state.GetOr(Initial()), action)
  }

  /** Login success installs the payload and clears the error, whatever came before. */
  lemma LoginSuccessSetsSession(s: AuthState, t: Option<string>, u: Option<string>, p: Option<string>)
    ensures Reduce(s, LoginSuccess(t, u, p)) == AuthState(t, u, None, p)
  {
  }

  /** Login failure records the error and keeps the session. */
  lemma LoginFailureKeepsSession(s: AuthState, m: Option<string>)
    ensures var r := Reduce(s, LoginFailure(m));
            r.error == m && r.token == s.token && r.user == s.user && r.serviceProviderId == s.serviceProviderId
  {
  }

  /** Clearing the error touches nothing else, and twice is once. */
  lemma ClearErrorOnlyClears(s: AuthState)
    ensures Reduce(s, ClearError) == s.(error := None)
    ensures Reduce(Reduce(s, ClearError), ClearError) == Reduce(s, ClearError)
  {
  }

  /** Logout nulls the session but leaves the error as it was. */
  lemma LogoutKeepsError(s: AuthState)
    ensures Reduce(s, Logout) == AuthState(None, None, s.error, None)
  {
  }

  /** Any other action type changes nothing. */
  lemma OtherIsIdentity(s: AuthState, actionType: string)
    ensures Reduce(s, Other(actionType)) == s
  {
  }

  /** The state after dispatching `actions` in order. */
  function ReduceAll(state: AuthState, actions: seq<Action>): (r: AuthState)
    decreases |actions|
  {
    if actions == [] then state else ReduceAll(Reduce(state, actions[0]), actions[1..])
  }

  /** The actions that write the session fields. */
  predicate TouchesSession(a: Action) {
    a.LoginSuccess? || a.Logout?
  }

  /** The actions that write the error. */
  predicate TouchesError(a: Action) {
    a.LoginSuccess? || a.LoginFailure? || a.ClearError?
  }

  /** Without a login success or logout, no sequence of actions changes the session. */
  lemma {:induction false} SessionNeedsLoginOrLogout(s: AuthState, actions: seq<Action>)
    requires forall k :: 0 <= k < |actions| ==> !TouchesSession(actions[k])
    ensures var r := ReduceAll(s, actions);
            r.token == s.token && r.user == s.user && r.serviceProviderId == s.serviceProviderId
    decreases |actions|
  {
    if actions != [] {
      SessionNeedsLoginOrLogout(Reduce(s, actions[0]), actions[1..]);
    }
  }

  /** Without a login or clear-error action, no sequence of actions changes the error. */
  lemma {:induction false} ErrorNeedsErrorAction(s: AuthState, actions: seq<Action>)
    requires forall k :: 0 <= k < |actions| ==> !TouchesError(actions[k])
    ensures ReduceAll(s, actions).error == s.error
    decreases |actions|
  {
    if actions != [] {
      ErrorNeedsErrorAction(Reduce(s, actions[0]), actions[1..]);
    }
  }

  /** Dispatching one sequence after another is dispatching their concatenation. */
  lemma {:induction false} ReduceAllAppend(s: AuthState, xs: seq<Action>, ys: seq<Action>)
    ensures ReduceAll(s, xs + ys) == ReduceAll(ReduceAll(s, xs), ys)
    decreases |xs|
  {
    if xs == [] {
      assert xs + ys == ys;
    } else {
      assert (xs + ys)[1..] == xs[1..] + ys;
      ReduceAllAppend(Reduce(s, xs[0]), xs[1..], ys);
    }
  }

  /** After a logout, later actions other than a login success leave the client logged out. */
  lemma {:induction false} LoggedOutStaysLoggedOut(s: AuthState, actions: seq<Action>)
    requires forall k :: 0 <= k < |actions| ==> !actions[k].LoginSuccess?
    ensures ReduceAll(s, [Logout] + actions).token == None
  {
    assert ([Logout] + actions)[1..] == actions;
    NoTokenWithoutLogin(Reduce(s, Logout), actions);
  }

  /** With no token, only a login success can set one. */
  lemma {:induction false} NoTokenWithoutLogin(s: AuthState, actions: seq<Action>)
    requires s.token == None
    requires forall k :: 0 <= k < |actions| ==> !actions[k].LoginSuccess?
    ensures ReduceAll(s, actions).token == None
    decreases |actions|
  {
    if actions != [] {
      NoTokenWithoutLogin(Reduce(s, actions[0]), actions[1..]);
    }
  }
}
