/**
 * The client's session: a reducer over the session state, and the provider
 * that drives it from the stored token and the answer of the `me` query.
 * The browser's `localStorage` entry `token` is a field of the provider; the
 * answer of the `me` query is a parameter (`None` when it fails or is empty).
 */
module AuthContext {
  import opened Wrappers

  const AdminRole := "ADMIN"
  const StaffRole := "STAFF"

  /** The fields of the `me` answer the client keeps. */
  datatype SessionUser = SessionUser(id: string, name: string, email: string, role: string)
  datatype SessionFirm = SessionFirm(id: string, name: string, email: string, address: string, phone: string)

  datatype AuthState = AuthState(user: Option<SessionUser>, firm: Option<SessionFirm>, token: Option<string>, loading: bool)

  /** The reducer's actions; `Other` is any action with another type tag. */
  datatype AuthAction =
    | SetToken(token: string)
    | SetUserData(user: SessionUser, firm: Option<SessionFirm>)
    | Logout
    | SetLoading(loading: bool)
    | Other(kind: string)

  /** The state before the session is restored: nothing known, still loading. */
  const InitialState := AuthState(None, None, None, true)

  /** The state every logout reaches. */
  const LoggedOut := AuthState(None, None, None, false)

  /** `authReducer`. */
  function Reduce(state: AuthState, action: AuthAction): AuthState {
    match action
    case SetToken(token) => state.(token := Some(token), loading := true)
    case SetUserData(user, firm) => state.(user := Some(user), firm := firm, loading := false)
    case Logout => InitialState.(loading := false)
    case SetLoading(loading) => state.(loading := loading)
    case Other(_) => state
  }

  /** JavaScript truthiness of an optional string: present and non-empty. */
  predicate Truthy(s: Option<string>) {
    s.Some? && s.value != ""
  }

  /** `!!state.token && !!state.user`. */
  predicate IsAuthenticated(state: AuthState) {
    Truthy(state.token) && state.user.Some?
  }

  predicate IsAdmin(state: AuthState) {
    state.user.Some? && state.user.value.role == AdminRole
  }

  predicate IsStaff(state: AuthState) {
    state.user.Some? && state.user.value.role == StaffRole
  }

  /** Each action changes only its own fields: a token starts loading and keeps
      who is known, user data ends loading and keeps the token, a loading flag
      changes nothing else, and any other action changes nothing. */
  lemma ReduceEffects(state: AuthState, action: AuthAction)
    ensures var r := Reduce(state, action);
      match action
      case SetToken(token) => r.token == Some(token) && r.loading && r.user == state.user && r.firm == state.firm
      case SetUserData(user, firm) => r.user == Some(user) && r.firm == firm && !r.loading && r.token == state.token
      case Logout => r == LoggedOut
      case SetLoading(loading) => r.loading == loading && r.user == state.user && r.firm == state.firm && r.token == state.token
      case Other(_) => r == state
  {
  }

  /** A logout forgets everything, whatever came before, so a second logout
      changes nothing, and the result is not authenticated. */
  lemma LogoutForgets(s: AuthState, t: AuthState)
    ensures Reduce(s, Logout) == Reduce(t, Logout)
    ensures Reduce(Reduce(s, Logout), Logout) == Reduce(s, Logout)
    ensures !IsAuthenticated(Reduce(s, Logout)) && !Reduce(s, Logout).loading
  {
  }

  /** No user is both an ADMIN and a STAFF member. */
  lemma AdminXorStaff(state: AuthState)
    ensures !(IsAdmin(state) && IsStaff(state))
    ensures (IsAdmin(state) || IsStaff(state)) ==> state.user.Some?
  {
  }

  /** A non-empty token followed by user data authenticates the session and ends loading. */
  lemma TokenThenUserAuthenticates(state: AuthState, token: string, user: SessionUser, firm: Option<SessionFirm>)
    requires token != ""
    ensures var r := Reduce(Reduce(state, SetToken(token)), SetUserData(user, firm));
      IsAuthenticated(r) && !r.loading && r.token == Some(token) && r.user == Some(user) && r.firm == firm
  {
  }

  /** An empty token never authenticates, whatever user is known. */
  lemma EmptyTokenNotAuthenticated(state: AuthState)
    requires state.token == Some("") || state.token.None?
    ensures !IsAuthenticated(state)
  {
  }

  /** `AuthProvider`: the reducer's state and the stored token. */
  class AuthProvider {
    var state: AuthState
    var storedToken: Option<string>

    /** The provider starts from the initial state with whatever token the browser kept. */
    constructor(stored: Option<string>)
      ensures state == InitialState && storedToken == stored
    {
      state := InitialState;
      storedToken := stored;
    }

    /** `fetchUserData`: stores the token if none is stored, then either
        records the user and firm of the `me` answer, or, when there is none,
        removes the stored token and logs out. */
    method FetchUserData(token: string, me: Option<(SessionUser, Option<SessionFirm>)>)
      modifies this
      ensures me.Some? ==> state == Reduce(old(state), SetUserData(me.value.0, me.value.1))
      ensures me.Some? ==> storedToken == if Truthy(old(storedToken)) then old(storedToken) else Some(token)
      ensures me.None? ==> state == LoggedOut && storedToken.None?
    {
      if !Truthy(storedToken) {
        storedToken := Some(token);
      }
      if me.Some? {
        state := Reduce(state, SetUserData(me.value.0, me.value.1));
      } else {
        storedToken := None;
        state := Reduce(state, AuthAction.Logout);
      }
    }

    /** `login`: store the token, record it, and fetch the user. A successful
        fetch with a non-empty token leaves the session authenticated under
        that token; a failed one leaves it logged out with nothing stored. */
    method Login(token: string, me: Option<(SessionUser, Option<SessionFirm>)>)
      modifies this
      ensures me.Some? ==>
        state.token == Some(token) && state.user == Some(me.value.0) && state.firm == me.value.1 &&
        !state.loading && storedToken == Some(token) && (token != "" ==> IsAuthenticated(state))
      ensures me.None? ==> state == LoggedOut && storedToken.None?
    {
      storedToken := Some(token);
      state := Reduce(state, SetToken(token));
      FetchUserData(token, me);
    }

    /** `logout`: forget the stored token and the session. */
    method Logout()
      modifies this
      ensures state == LoggedOut && storedToken.None?
    {
      storedToken := None;
      state := Reduce(state, AuthAction.Logout);
    }

    /** `restoreSession`: with a stored token, record it and fetch the user;
        without one, only stop loading. */
    method RestoreSession(me: Option<(SessionUser, Option<SessionFirm>)>)
      modifies this
      ensures !Truthy(old(storedToken)) ==> state == old(state).(loading := false) && storedToken == old(storedToken)
      ensures Truthy(old(storedToken)) && me.Some? ==>
        state.token == old(storedToken) && state.user == Some(me.value.0) && state.firm == me.value.1 &&
        IsAuthenticated(state) && !state.loading && storedToken == old(storedToken)
      ensures Truthy(old(storedToken)) && me.None? ==> state == LoggedOut && storedToken.None?
    {
      if Truthy(storedToken) {
        var token := storedToken.value;
        state := Reduce(state, SetToken(token));
        FetchUserData(token, me);
      } else {
        state := Reduce(state, SetLoading(false));
      }
    }

    /** `refetchUser`: fetch the user again under the session's token, if any. */
    method RefetchUser(me: Option<(SessionUser, Option<SessionFirm>)>)
      modifies this
      ensures !Truthy(old(state.token)) ==> state == old(state) && storedToken == old(storedToken)
      ensures Truthy(old(state.token)) && me.Some? ==>
        state == Reduce(old(state), SetUserData(me.value.0, me.value.1)) && IsAuthenticated(state) &&
        storedToken == if Truthy(old(storedToken)) then old(storedToken) else old(state.token)
      ensures Truthy(old(state.token)) && me.None? ==> state == LoggedOut && storedToken.None?
    {
      if Truthy(state.token) {
        FetchUserData(state.token.value, me);
      }
    }
  }
}
