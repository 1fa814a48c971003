/**
 * The web client's authentication store (frontend/src/store/authStore.ts):
 * the tokens, the signed-in user and the flags, of which `persist` keeps
 * the tokens, the user and the signed-in flag in local storage under
 * "auth-storage". Each action is a function from the state before to the
 * state after, `set` merging the fields it names into the state.
 */
module AuthStore {
  import opened Wrappers

  datatype UserData = UserData(id: string, userName: string, email: string, phoneNumber: Option<string>)

  datatype AuthResponse = AuthResponse(token: string, refreshToken: string, tokenExpires: string, user: UserData)

  datatype AuthState = AuthState(
    token: string, refreshToken: string, user: Option<UserData>, isAuthenticated: bool,
    isLoading: bool, error: Option<string>)

  /** The part of the state written to local storage. */
  datatype PersistedAuth = PersistedAuth(
    token: string, refreshToken: string, user: Option<UserData>, isAuthenticated: bool)

  function Initial(): AuthState
  {
    AuthState("", "", None, false, false, None)
  }

  function SetTokens(s: AuthState, token: string, refreshToken: string): AuthState
  {
    s.(token := token, refreshToken := refreshToken)
  }

  /** `setUser`: signed in exactly when there is a user. */
  function SetUser(s: AuthState, user: Option<UserData>): AuthState
  {
    s.(user := user, isAuthenticated := user.Some?)
  }

  function ClearAuth(s: AuthState): AuthState
  {
    s.(token := "", refreshToken := "", user := None, isAuthenticated := false, error := None)
  }

  function Login(s: AuthState, response: AuthResponse): AuthState
  {
    s.(token := response.token, refreshToken := response.refreshToken, user := Some(response.user),
       isAuthenticated := true, error := None)
  }

  function Logout(s: AuthState): AuthState
  {
    s.(token := "", refreshToken := "", user := None, isAuthenticated := false, error := None)
  }

  function SetAuthenticated(s: AuthState, authenticated: bool): AuthState
  {
    s.(isAuthenticated := authenticated)
  }

  function SetLoading(s: AuthState, loading: bool): AuthState
  {
    s.(isLoading := loading)
  }

  function SetError(s: AuthState, error: Option<string>): AuthState
  {
    s.(error := error)
  }

  /** `partialize`: what `persist` stores. */
  function Partialize(s: AuthState): PersistedAuth
  {
    PersistedAuth(s.token, s.refreshToken, s.user, s.isAuthenticated)
  }

  /** Rehydration: `persist` merges the stored fields over the state. */
  function Rehydrate(s: AuthState, p: PersistedAuth): AuthState
  {
    s.(token := p.token, refreshToken := p.refreshToken, user := p.user, isAuthenticated := p.isAuthenticated)
  }

  /** `useAuthActions().login`: loading on, `login`, loading off. */
  function LoginAction(s: AuthState, response: AuthResponse): AuthState
  {
    SetLoading(Login(SetLoading(s, true), response), false)
  }

  /** `useAuthActions().logout`: loading on, `logout`, loading off. */
  function LogoutAction(s: AuthState): AuthState
  {
    SetLoading(Logout(SetLoading(s, true)), false)
  }

  /** `logout` and `clearAuth` always produce the same state, which only the loading flag tells apart from the initial one. */
  lemma LogoutIsClearAuth(s: AuthState)
    ensures Logout(s) == ClearAuth(s)
    ensures Logout(s) == Initial().(isLoading := s.isLoading)
    ensures Partialize(Logout(s)) == Partialize(Initial())
  {
  }

  /** `setUser` signs in exactly when given a user, and `setTokens` changes only the two tokens. */
  lemma SettersSound(s: AuthState, user: Option<UserData>, token: string, refreshToken: string)
    ensures SetUser(s, user).isAuthenticated <==> user.Some?
    ensures SetUser(s, user).(user := s.user, isAuthenticated := s.isAuthenticated) == s
    ensures SetTokens(s, token, refreshToken).(token := s.token, refreshToken := s.refreshToken) == s
    ensures Partialize(SetTokens(s, token, refreshToken)).user == s.user
  {
  }

  /** `login` takes tokens and user from the response, signs in and clears the error, keeping the loading flag. */
  lemma LoginSound(s: AuthState, response: AuthResponse)
    ensures var r := Login(s, response);
            && r.token == response.token && r.refreshToken == response.refreshToken
            && r.user == Some(response.user) && r.isAuthenticated && r.error.None?
            && r.isLoading == s.isLoading
    ensures LoginAction(s, response) == Login(s, response).(isLoading := false)
    ensures LogoutAction(s) == Initial()
  {
  }

  /**
   * Persisting then rehydrating restores the state, and rehydrating
   * restores exactly what was stored; the loading flag and the error are
   * never stored.
   */
  lemma PersistRoundTrip(s: AuthState, p: PersistedAuth)
    ensures Rehydrate(s, Partialize(s)) == s
    ensures Partialize(Rehydrate(s, p)) == p
    ensures Rehydrate(s, p).isLoading == s.isLoading && Rehydrate(s, p).error == s.error
  {
  }
}
