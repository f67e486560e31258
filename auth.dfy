/**
 * The client-side authentication state of the frontend (`AuthProvider`):
 * the fields `token`, `user`, `loading` and `error`, plus the `"token"`
 * entry of local storage, and the transitions `login`, `logout`,
 * `loadUserProfile` and `clearError`. What the network returns is an input;
 * the await in each transition is collapsed into one step.
 */
module Auth {
  import opened Common

  /**
   * How `api.login(email, password)` settles: the response data, or a
   * thrown error carrying its `message` ("" when it has none).
   */
  datatype LoginResponse = LoginData(token: Option<string>, user: Option<User>) | LoginThrew(message: string)

  /**
   * How the `userProfile` query settles: `response.data.userProfile` (absent
   * when `data` or the field is missing), or a thrown error with its `status`.
   */
  datatype ProfileResponse = ProfileData(userProfile: Option<User>) | ProfileThrew(status: int)

  /** The provider's state and the stored token. */
  datatype AuthState = AuthState(token: Option<string>, user: Option<User>, loading: bool,
                                 error: Option<string>, storedToken: Option<string>)

  const LoginFailed := "Login failed"

  /** `logout` (frontend/src/AuthContext.js:78-83). */
  function AfterLogout(s: AuthState): (r: AuthState)
    ensures r.token == None && r.user == None && r.error == None && r.storedToken == None
    ensures r.loading == s.loading
  {
    s.(token := None, user := None, error := None, storedToken := None)
  }

  /** `clearError` (frontend/src/AuthContext.js:85-87). */
  function AfterClearError(s: AuthState): (r: AuthState)
    ensures r.error == None
    ensures r.token == s.token && r.user == s.user && r.loading == s.loading && r.storedToken == s.storedToken
  {
    s.(error := None)
  }

  /**
   * `login` (frontend/src/AuthContext.js:49-76): the state it leaves and
   * the value it returns, from the start (`loading` on, `error` cleared)
   * through the `try`, the `catch` and the `finally`.
   */
  function AfterLogin(s: AuthState, resp: LoginResponse): (r: (AuthState, bool))
    ensures !r.0.loading
    ensures r.1 <==> resp.LoginData? && TruthyText(resp.token)
    ensures r.1 ==> r.0.token == resp.token && r.0.storedToken == resp.token
    ensures r.1 ==> r.0.user == (if resp.user.Some? then resp.user else s.user)
    ensures resp.LoginData? ==> r.0.error == None
    ensures !r.1 ==> r.0.token == s.token && r.0.storedToken == s.storedToken && r.0.user == s.user
    ensures resp.LoginThrew? ==>
      r.0.error == Some(if resp.message != "" then resp.message else LoginFailed)
  {
    var started := s.(loading := true, error := None);
    var (settled, ok) :=
      match resp
      case LoginData(token, user) =>
        if TruthyText(token) then
          (started.(token := token, storedToken := token, user := if user.Some? then user else started.user), true)
        else (started, false)
      case LoginThrew(message) =>
        (started.(error := Some(if message != "" then message else LoginFailed)), false);
    (settled.(loading := false), ok)
  }

  /**
   * `loadUserProfile` (frontend/src/AuthContext.js:19-47): nothing without
   * a token; otherwise the profile replaces `user` when there is one, a 401
   * logs out, and `loading` ends off.
   */
  function AfterLoadProfile(s: AuthState, resp: ProfileResponse): (r: AuthState)
    ensures !TruthyText(s.token) ==> r == s
    ensures TruthyText(s.token) ==> !r.loading
    ensures TruthyText(s.token) && resp.ProfileData? ==>
      r.token == s.token && r.error == s.error && r.storedToken == s.storedToken &&
      r.user == (if resp.userProfile.Some? then resp.userProfile else s.user)
    ensures TruthyText(s.token) && resp.ProfileThrew? && resp.status == 401 ==>
      r == AfterLogout(s).(loading := false)
    ensures TruthyText(s.token) && resp.ProfileThrew? && resp.status != 401 ==>
      r == s.(loading := false)
  {
    if !TruthyText(s.token) then s
    else
      var started := s.(loading := true);
      var settled :=
        match resp
        case ProfileData(profile) => if profile.Some? then started.(user := profile) else started
        case ProfileThrew(status) => if status == 401 then AfterLogout(started) else started;
      settled.(loading := false)
  }

  /** Logging out, from any state, leaves no token, no user and no error behind. */
  lemma LogoutForgetsSession(s: AuthState, resp: ProfileResponse)
    ensures AfterLoadProfile(AfterLogout(s), resp) == AfterLogout(s)
    ensures AfterLogout(AfterLogout(s)) == AfterLogout(s)
  {
  }

  /** A successful login, then a profile rejected with 401, ends logged out. */
  lemma RejectedProfileLogsOut(s: AuthState, token: string, user: Option<User>)
    requires token != ""
    ensures var (afterLogin, ok) := AfterLogin(s, LoginData(Some(token), user));
      && ok
      && AfterLoadProfile(afterLogin, ProfileThrew(401)) == AuthState(None, None, false, None, None)
  {
  }

  /** The `AuthProvider` component's state. */
  class AuthProvider {
    var token: Option<string>
    var user: Option<User>
    var loading: bool
    var error: Option<string>
    /** The `"token"` entry of local storage. */
    var storedToken: Option<string>

    function State(): AuthState
      reads this
    {
      AuthState(token, user, loading, error, storedToken)
    }

    /** Mounting: the token is read back from storage (frontend/src/AuthContext.js:7-10). */
    constructor (stored: Option<string>)
      ensures State() == AuthState(stored, None, false, None, stored)
    {
      token, user, loading, error, storedToken := stored, None, false, None, stored;
    }

    method Logout()
      modifies this
      ensures State() == AfterLogout(old(State()))
    {
      token := None;
      user := None;
      error := None;
      storedToken := None;
    }

    method ClearError()
      modifies this
      ensures State() == AfterClearError(old(State()))
    {
      error := None;
    }

    /** `login(email, password)`, where `api` stands for what `api.login` settles to for those credentials. */
    method Login(email: string, password: string, api: (string, string) -> LoginResponse) returns (ok: bool)
      modifies this
      ensures (State(), ok) == AfterLogin(old(State()), api(email, password))
    {
      loading := true;
      error := None;
      var data := api(email, password);
      match data {
        case LoginData(t, u) =>
          if TruthyText(t) {
            token := t;
            storedToken := t;
            if u.Some? {
              user := u;
            }
            ok := true;
          } else {
            ok := false;
          }
        case LoginThrew(message) =>
          error := Some(if message != "" then message else LoginFailed);
          ok := false;
      }
      loading := false;
    }

    method LoadUserProfile(resp: ProfileResponse)
      modifies this
      ensures State() == AfterLoadProfile(old(State()), resp)
    {
      if !TruthyText(token) {
        return;
      }
      loading := true;
      match resp {
        case ProfileData(profile) =>
          if profile.Some? {
            user := profile;
          }
        case ProfileThrew(status) =>
          if status == 401 {
            Logout();
          }
      }
      loading := false;
    }
  }
}
