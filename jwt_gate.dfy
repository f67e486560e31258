/**
 * The authenticated GraphQL route of the backend: `jwtMiddleware`, which
 * takes the bearer token from the `Authorization` header and verifies it,
 * and `root.userProfile`, the one query it guards. `jwt.verify` is an
 * oracle given as a parameter: it either decodes the claims of a token or
 * fails with one of the library's error names.
 */
module JwtGate {
  import opened Common
  import LoginRoute

  /** What `jwt.verify(token, secret)` yields: decoded claims, or the `name` of the error it throws. */
  datatype VerifyOutcome = Decoded(claims: Claims) | TokenExpiredError | JsonWebTokenError | OtherError

  const BearerPrefix := "Bearer "

  /** The middleware's decision: continue the chain with `req.user` set, or answer with an error. */
  datatype Gate = Proceed(user: Claims) | Deny(status: int, error: string)

  /** The data `userProfile` returns. */
  datatype Profile = Profile(id: int, email: Option<string>, name: string)

  /** What the client gets from a `userProfile` query. */
  datatype QueryReply = HttpError(status: int, error: string) | Data(profile: Profile) | GraphqlError(message: string)

  /**
   * The token in an `Authorization` header: present only when the header
   * starts with `"Bearer "`, and then the header minus its first 7 characters.
   */
  function BearerToken(header: Option<string>): (r: Option<string>)
    ensures r.Some? <==> header.Some? && |header.value| >= |BearerPrefix| && header.value[..|BearerPrefix|] == BearerPrefix
    ensures r.Some? ==> header.value == BearerPrefix + r.value
  {
    if header.None? || header.value == "" then None
    else if |header.value| < 7 || header.value[..7] != BearerPrefix then None
    else
      assert header.value == header.value[..7] + header.value[7..];
      Some(header.value[7..])
  }

  /** The header the frontend sends (frontend/src/api.js:67) carries exactly the token it holds. */
  lemma BearerRoundTrip(token: string)
    ensures BearerToken(Some(BearerPrefix + token)) == Some(token)
  {
    var h := BearerPrefix + token;
    assert h[..7] == BearerPrefix;
    assert h[7..] == token;
  }

  /** The 401 message for each way `jwt.verify` can fail. */
  function VerifyErrorMessage(v: VerifyOutcome): (m: string)
    requires !v.Decoded?
    ensures m == "Token expired" <==> v.TokenExpiredError?
    ensures m == "Invalid token" <==> v.JsonWebTokenError?
    ensures m == "Authentication failed" <==> v.OtherError?
  {
    match v
    case TokenExpiredError => "Token expired"
    case JsonWebTokenError => "Invalid token"
    case OtherError => "Authentication failed"
  }

  /** `jwtMiddleware` as a decision (backend/server.js:196-218). */
  function Authenticate(header: Option<string>, verify: string -> VerifyOutcome): (r: Gate)
    ensures BearerToken(header).None? ==> r == Deny(401, "Authorization header required")
    ensures r.Proceed? <==> BearerToken(header).Some? && verify(BearerToken(header).value).Decoded?
    ensures r.Proceed? ==> r.user == verify(BearerToken(header).value).claims
    ensures r.Deny? ==> r.status == 401
    ensures BearerToken(header).Some? && verify(BearerToken(header).value) == TokenExpiredError ==>
      r == Deny(401, "Token expired")
    ensures BearerToken(header).Some? && verify(BearerToken(header).value) == JsonWebTokenError ==>
      r == Deny(401, "Invalid token")
    ensures BearerToken(header).Some? && verify(BearerToken(header).value) == OtherError ==>
      r == Deny(401, "Authentication failed")
  {
    match BearerToken(header)
    case None => Deny(401, "Authorization header required")
    case Some(token) =>
      var v := verify(token);
      if v.Decoded? then Proceed(v.claims) else Deny(401, VerifyErrorMessage(v))
  }

  /** The part of an Express request the middleware reads and writes. */
  class Request {
    const authorization: Option<string>
    var user: Option<Claims>

    constructor (authorization: Option<string>)
      ensures this.authorization == authorization && user == None
    {
      this.authorization := authorization;
      user := None;
    }
  }

  /**
   * `jwtMiddleware` on a request: `next` is whether the chain continues;
   * only then are the decoded claims attached as `req.user`.
   */
  method JwtMiddleware(req: Request, verify: string -> VerifyOutcome) returns (next: bool, denial: Option<(int, string)>)
    modifies req
    ensures var g := Authenticate(req.authorization, verify);
      && next == g.Proceed?
      && req.user == (if g.Proceed? then Some(g.user) else old(req.user))
      && denial == (if g.Deny? then Some((g.status, g.error)) else None)
  {
    var authHeader := req.authorization;
    if authHeader.None? || |authHeader.value| < 7 || authHeader.value[..7] != BearerPrefix {
      return false, Some((401, "Authorization header required"));
    }
    var token := authHeader.value[7..];
    var decoded := verify(token);
    if decoded.Decoded? {
      req.user := Some(decoded.claims);
      return true, None;
    }
    return false, Some((401, VerifyErrorMessage(decoded)));
  }

  /** JavaScript truthiness of an optional number: absent and 0 are falsy. */
  predicate TruthyId(id: Option<int>)
  {
    id.Some? && id.value != 0
  }

  /** The `userProfile` resolver (backend/server.js:181-193). */
  function UserProfile(auth: Option<Claims>): (r: Result<Profile>)
    ensures r.Err? <==> auth.None? || !TruthyId(auth.value.id)
    ensures r.Err? ==> r.error == "Unauthorized: Valid token required"
    ensures r.Ok? ==> r.value.id == auth.value.id.value && r.value.email == auth.value.email
    ensures r.Ok? ==> r.value.name == (if TruthyText(auth.value.name) then auth.value.name.value else "Demo User")
  {
    if auth.None? || !TruthyId(auth.value.id) then Err("Unauthorized: Valid token required")
    else
      var a := auth.value;
      Ok(Profile(a.id.value, a.email, if TruthyText(a.name) then a.name.value else "Demo User"))
  }

  /** A `userProfile` query through `/graphql`: the middleware, then the resolver with `context.auth = req.user`. */
  function QueryUserProfile(header: Option<string>, verify: string -> VerifyOutcome): (r: QueryReply)
    ensures BearerToken(header).None? ==> r == HttpError(401, "Authorization header required")
    ensures Authenticate(header, verify).Deny? ==>
      r == HttpError(Authenticate(header, verify).status, Authenticate(header, verify).error)
    ensures Authenticate(header, verify).Proceed? && UserProfile(Some(Authenticate(header, verify).user)).Ok? ==>
      r == Data(UserProfile(Some(Authenticate(header, verify).user)).value)
    ensures Authenticate(header, verify).Proceed? && UserProfile(Some(Authenticate(header, verify).user)).Err? ==>
      r == GraphqlError("Unauthorized: Valid token required")
    ensures r.Data? ==> Authenticate(header, verify).Proceed? && UserProfile(Some(Authenticate(header, verify).user)) == Ok(r.profile)
  {
    match Authenticate(header, verify)
    case Deny(status, error) => HttpError(status, error)
    case Proceed(user) =>
      match UserProfile(Some(user))
      case Ok(p) => Data(p)
      case Err(m) => GraphqlError(m)
  }

  /**
   * The resolver runs only behind a verified token: whatever the header and
   * the verifier, profile data comes back only when the verifier decoded the
   * bearer token of the header, and then it is built from those claims.
   */
  lemma ProfileOnlyForVerifiedToken(header: Option<string>, verify: string -> VerifyOutcome)
    ensures QueryUserProfile(header, verify).Data? ==>
      BearerToken(header).Some? && verify(BearerToken(header).value).Decoded? &&
      UserProfile(Some(verify(BearerToken(header).value).claims)) == Ok(QueryUserProfile(header, verify).profile)
  {
  }

  /**
   * Logging in and then querying the profile with the issued token gives
   * back the demo user, provided the verifier decodes a token the signer
   * issued to the claims it was issued for (the library's round-trip).
   */
  lemma LoginThenProfile(sign: (Claims, string) -> string, env: string, verify: string -> VerifyOutcome)
    requires verify(sign(LoginRoute.DemoClaims, LoginRoute.ExpiresIn(env))) == Decoded(LoginRoute.DemoClaims)
    ensures var reply := LoginRoute.HandleLogin(LoginRoute.Text("user@example.com"), LoginRoute.Text("password123"), sign, env);
      && reply.Issued?
      && QueryUserProfile(Some(BearerPrefix + reply.token), verify) == Data(Profile(1, Some("user@example.com"), "Demo User"))
  {
    var reply := LoginRoute.HandleLogin(LoginRoute.Text("user@example.com"), LoginRoute.Text("password123"), sign, env);
    BearerRoundTrip(reply.token);
  }

  /**
   * A bearer token the verifier decodes to claims with a truthy id yields
   * that user's profile, the name defaulting to "Demo User".
   */
  lemma VerifiedTokenGivesProfile(token: string, verify: string -> VerifyOutcome)
    requires verify(token).Decoded? && TruthyId(verify(token).claims.id)
    ensures var c := verify(token).claims;
      QueryUserProfile(Some(BearerPrefix + token), verify) ==
        Data(Profile(c.id.value, c.email, if TruthyText(c.name) then c.name.value else "Demo User"))
  {
    BearerRoundTrip(token);
  }

  /** An expired token is reported as expired, distinctly from an invalid one. */
  lemma ExpiredIsNotInvalid(token: string, verify: string -> VerifyOutcome)
    requires verify(token) == TokenExpiredError
    ensures QueryUserProfile(Some(BearerPrefix + token), verify) == HttpError(401, "Token expired")
  {
    BearerRoundTrip(token);
  }
}
