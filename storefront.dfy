/**
 * The frontend and the backend together on the login path: the client's
 * request wrapper turns the route's reply into what `login` awaits, and the
 * lemmas follow a submitted form through the validation chain, the route
 * and the provider's state.
 */
module Storefront {
  import opened Common
  import opened LoginRoute
  import LoginThrottle
  import opened Auth
  import opened LoginForm

  const RequestFailed := "Request failed"
  const NetworkError := "Network error. Please check your connection."

  /**
   * `apiRequest` for `POST /login` (frontend/src/api.js:14-54): a 2xx body
   * is returned as the data, an error body is thrown with its `error` (or a
   * fixed text when that is empty), and no reply at all (`None`: the request
   * or the body parse failed) is thrown as a network error.
   */
  function OverHttp(reply: Option<LoginReply>): (r: LoginResponse)
    ensures reply.None? ==> r == LoginThrew(NetworkError)
    ensures reply.Some? && reply.value.Issued? ==>
      r == LoginData(Some(reply.value.token), Some(reply.value.user))
    ensures reply.Some? && reply.value.Refused? ==> r.LoginThrew? && r.message != ""
    ensures reply.Some? && reply.value.Refused? && reply.value.error != "" ==> r == LoginThrew(reply.value.error)
    ensures reply.Some? && reply.value.Refused? && reply.value.error == "" ==> r == LoginThrew(RequestFailed)
  {
    match reply
    case None => LoginThrew(NetworkError)
    case Some(Issued(token, user)) => LoginData(Some(token), Some(user))
    case Some(Refused(_, error)) => LoginThrew(if error != "" then error else RequestFailed)
  }

  /**
   * What the frontend's `api.login(email, password)` settles to when the
   * request reaches `POST /login` (backend/server.js:89): the limiter's
   * step on the client's window `w` at time `now`, the validation stage
   * with verdict `validatorOk`, the handler, and then the request wrapper.
   * The server side is `LoginThrottle.ChainReply`, the reply that
   * `LoginThrottle.LoginLimiter.Login` also gives.
   */
  function Backend(w: Option<LoginThrottle.Window>, now: int, validatorOk: bool,
                   sign: (Claims, string) -> string, env: string, email: string, password: string): (r: LoginResponse)
    ensures LoginThrottle.Live(w, now).hits >= LoginThrottle.MaxAttempts ==>
      r == LoginThrew(LoginThrottle.TooManyMessage)
    ensures LoginThrottle.Live(w, now).hits < LoginThrottle.MaxAttempts && !validatorOk ==>
      r == LoginThrew("Validation failed")
    ensures LoginThrottle.Live(w, now).hits < LoginThrottle.MaxAttempts && validatorOk ==>
      r == OverHttp(Some(HandleLogin(Text(email), Text(password), sign, env)))
  {
    OverHttp(Some(LoginThrottle.ChainReply(w, now, ValidateThenHandle(validatorOk, Text(email), Text(password), sign, env)).1))
  }

  /**
   * The form as it first appears (which passes every check, by
   * `InitialValuesPass`) logs the demo user in, provided the limiter has
   * room for the client and the validator accepts the demo credentials
   * unchanged: the route issues a token, and the provider stores that token
   * and that user with no error left.
   */
  lemma InitialFormLogsIn(s: AuthState, w: Option<LoginThrottle.Window>, now: int,
                          sign: (Claims, string) -> string, env: string)
    requires LoginThrottle.Live(w, now).hits < LoginThrottle.MaxAttempts
    requires sign(DemoClaims, ExpiresIn(env)) != ""
    ensures var (after, ok) := AfterLogin(s, Backend(w, now, true, sign, env, InitialEmail, InitialPassword));
      && ok
      && after.token == Some(sign(DemoClaims, ExpiresIn(env)))
      && after.storedToken == after.token
      && after.user == Some(DemoUser)
      && after.error == None
      && !after.loading
  {
    assert InitialEmail == DemoUser.email && InitialPassword == DemoPassword;
    assert HandleLogin(Text(InitialEmail), Text(InitialPassword), sign, env) == Issued(sign(DemoClaims, ExpiresIn(env)), DemoUser);
  }

  /**
   * Credentials other than the demo pair, admitted by the limiter and
   * accepted unchanged by the validator, end with `login` returning false,
   * the session untouched, and the route's "Invalid credentials" as the
   * provider's error.
   */
  lemma WrongCredentialsSetServerError(s: AuthState, w: Option<LoginThrottle.Window>, now: int,
                                       email: string, password: string,
                                       sign: (Claims, string) -> string, env: string)
    requires LoginThrottle.Live(w, now).hits < LoginThrottle.MaxAttempts
    requires (email, password) != (DemoUser.email, DemoPassword)
    ensures var (after, ok) := AfterLogin(s, Backend(w, now, true, sign, env, email, password));
      && !ok
      && after.token == s.token && after.user == s.user && after.storedToken == s.storedToken
      && after.error == Some("Invalid credentials")
  {
  }

  /**
   * Credentials the server's validator rejects (which the page's own checks
   * may let through) end with "Validation failed" as the provider's error.
   */
  lemma RejectedByValidatorSetsValidationFailed(s: AuthState, w: Option<LoginThrottle.Window>, now: int,
                                                email: string, password: string,
                                                sign: (Claims, string) -> string, env: string)
    requires LoginThrottle.Live(w, now).hits < LoginThrottle.MaxAttempts
    ensures var (after, ok) := AfterLogin(s, Backend(w, now, false, sign, env, email, password));
      && !ok
      && after.token == s.token && after.user == s.user && after.storedToken == s.storedToken
      && after.error == Some("Validation failed")
  {
  }

  /**
   * A client whose window is spent gets the limiter's message as the
   * provider's error when `login` returns, whatever it submits, the demo
   * credentials included, and its session is unchanged.
   */
  lemma ThrottledLoginSetsLimitMessage(s: AuthState, w: Option<LoginThrottle.Window>, now: int, validatorOk: bool,
                                       email: string, password: string,
                                       sign: (Claims, string) -> string, env: string)
    requires LoginThrottle.Live(w, now).hits >= LoginThrottle.MaxAttempts
    ensures var (after, ok) := AfterLogin(s, Backend(w, now, validatorOk, sign, env, email, password));
      && !ok
      && after.token == s.token && after.user == s.user && after.storedToken == s.storedToken
      && after.error == Some(LoginThrottle.TooManyMessage)
  {
  }
}
