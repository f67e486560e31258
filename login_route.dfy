/**
 * The `POST /login` route of the backend after its rate limiter: the
 * input validation stage and the credential check that issues a token for
 * the single demo user. Signing (`jwt.sign`) and `express-validator` are
 * oracles given as parameters.
 */
module LoginRoute {
  import opened Common

  /** The one known identity and its password (backend/server.js:64-65). */
  const DemoUser := User(1, "user@example.com", "Demo User")
  const DemoPassword := "password123"

  /** The claims signed into every issued token. */
  const DemoClaims := Claims(Some(DemoUser.id), Some(DemoUser.email), Some(DemoUser.name))

  /** The token lifetime used when the environment names none. */
  const DefaultExpiresIn := "2h"

  /** A request-body field: a string, or any other JavaScript value (absent, number, object, ...). */
  datatype BodyField = Text(s: string) | NotText

  /** An HTTP error status. */
  type ErrorStatus = s: int | 400 <= s <= 599 witness 400

  /** A login response: `200 { token, user }`, or an error status with `{ error }`. */
  datatype LoginReply = Issued(token: string, user: User) | Refused(status: ErrorStatus, error: string)

  /** The HTTP status of a login response. */
  function Status(r: LoginReply): (s: int)
    ensures s < 400 <==> r.Issued?
  {
    match r
    case Issued(_, _) => 200
    case Refused(status, _) => status
  }

  /** `process.env.JWT_EXPIRES_IN || "2h"`, where "" stands for an unset variable. */
  function ExpiresIn(env: string): (r: string)
    ensures r != ""
    ensures env != "" ==> r == env
    ensures env == "" ==> r == DefaultExpiresIn
  {
    if env != "" then env else DefaultExpiresIn
  }

  /**
   * The route handler (backend/server.js:89-122): non-string fields are
   * refused as malformed before any comparison; both comparisons are
   * evaluated, and any mismatch gets one and the same reply.
   */
  function HandleLogin(email: BodyField, password: BodyField, sign: (Claims, string) -> string, env: string): (r: LoginReply)
    ensures r.Issued? <==> email == Text(DemoUser.email) && password == Text(DemoPassword)
    ensures r.Issued? ==> r.user == DemoUser && r.token == sign(DemoClaims, ExpiresIn(env))
    ensures !email.Text? || !password.Text? ==> r == Refused(400, "Invalid input format")
    ensures email.Text? && password.Text? && !r.Issued? ==> r == Refused(401, "Invalid credentials")
  {
    if !email.Text? || !password.Text? then
      Refused(400, "Invalid input format")
    else
      var isValidEmail := email.s == DemoUser.email;
      var isValidPassword := password.s == DemoPassword;
      if isValidEmail && isValidPassword then
        Issued(sign(DemoClaims, ExpiresIn(env)), DemoUser)
      else
        Refused(401, "Invalid credentials")
  }

  /**
   * The chain behind the limiter: the validation stage (an oracle verdict
   * `validatorOk`, backend/server.js:68-86), then the handler.
   */
  function ValidateThenHandle(validatorOk: bool, email: BodyField, password: BodyField,
                              sign: (Claims, string) -> string, env: string): (r: LoginReply)
    ensures !validatorOk ==> r == Refused(400, "Validation failed")
    ensures validatorOk ==> r == HandleLogin(email, password, sign, env)
  {
    if !validatorOk then Refused(400, "Validation failed")
    else HandleLogin(email, password, sign, env)
  }

  /**
   * A wrong email and a wrong password cannot be told apart: every pair of
   * string fields other than the demo credentials gets the same reply.
   */
  lemma MismatchIsIndistinguishable(e1: string, p1: string, e2: string, p2: string,
                                    sign: (Claims, string) -> string, env: string)
    requires (e1, p1) != (DemoUser.email, DemoPassword)
    requires (e2, p2) != (DemoUser.email, DemoPassword)
    ensures HandleLogin(Text(e1), Text(p1), sign, env) == HandleLogin(Text(e2), Text(p2), sign, env)
    ensures HandleLogin(Text(e1), Text(p1), sign, env) == Refused(401, "Invalid credentials")
  {
  }
}
