/**
 * POST /api/login (app/api/login/route.ts): the credential check and the session it opens.
 * Email and password are required; an unknown email and a wrong password get the same 401;
 * on success a one-hour token carrying the user's id, email, name and role is set as an
 * http-only `token` cookie. The route only reads the users collection.
 */
module Login {
  import opened Common
  import opened SeminarModel
  import opened UserModel
  import opened Http
  import opened Auth
  import opened Store

  /** The JSON body; a property may be missing. */
  datatype LoginBody = LoginBody(email: Option<string>, password: Option<string>)

  /** `expiresIn: '1h'`, in seconds. */
  const TOKEN_LIFETIME: int := 3600
  /** The cookie's `maxAge`, in seconds. */
  const COOKIE_MAX_AGE: int := 3600

  const FIELDS_REQUIRED: string := "Email and password are required"
  const INVALID_CREDENTIALS: string := "Invalid credentials"
  const LOGGED_IN: string := "Login successful"

  /** A cookie set on the response, with its attributes. */
  datatype Cookie = Cookie(name: string, value: Token, httpOnly: bool, secure: bool, sameSite: string,
                           maxAge: int, path: string)

  /** The answer, and the cookie it sets, if any. */
  datatype LoginResult = LoginResult(response: Response, cookie: Option<Cookie>)

  /**
   * `jwt.sign({ userId, email, name, role }, JWT_SECRET, { expiresIn: '1h' })`, just issued.
   * The base64url encoding of the payload, which also holds the clock's `iat` and `exp`, is
   * not modelled: `plainBase64` is whether the encoded segment holds neither '-' nor '_'.
   */
  function IssueToken(u: User, plainBase64: bool): (t: Token)
    ensures Verify(t) == Some(Claims(Some(u.id), Some(u.email), Some(u.name), Some(u.role)))
    ensures t.expiresIn == TOKEN_LIFETIME
    ensures Decode(t).Some? <==> plainBase64
    ensures plainBase64 ==> Decode(t) == Verify(t)
  {
    Token(Some(Claims(Some(u.id), Some(u.email), Some(u.name), Some(u.role))), plainBase64, true, TOKEN_LIFETIME, 0)
  }

  /**
   * The handler over the users collection; `development` is whether the deployment runs in
   * development mode, where the cookie is not marked secure, and `plainBase64` whether the
   * token issued on success has a middle segment in the plain base64 alphabet.
   */
  function Handle(users: seq<User>, body: LoginBody, development: bool, plainBase64: bool): LoginResult {
    if !Truthy(body.email) || !Truthy(body.password) then LoginResult(Fail(BadRequest, FIELDS_REQUIRED), None)
    else match FindByEmail(users, body.email.value)
      case None => LoginResult(Fail(Unauthorized, INVALID_CREDENTIALS), None)
      case Some(user) =>
        if !Compare(body.password.value, user.password) then LoginResult(Fail(Unauthorized, INVALID_CREDENTIALS), None)
        else
          LoginResult(Response(OK, LoginInfo(LOGGED_IN, user.role, user.name, user.email)),
                      Some(Cookie("token", IssueToken(user, plainBase64), true, !development, "strict", COOKIE_MAX_AGE, "/")))
  }

  /** The route file exports POST only. */
  function Route(db: Db, req: Request<LoginBody>, development: bool, plainBase64: bool): LoginResult {
    if req.verb != POST then LoginResult(NOT_EXPORTED, None) else Handle(db.users, req.body, development, plainBase64)
  }

  // ---------------------------------------------------------------------------------------
  // Properties

  /** A missing or empty email or password is answered 400, with no cookie. */
  lemma IncompleteRejected(users: seq<User>, body: LoginBody, development: bool, plainBase64: bool)
    requires !Truthy(body.email) || !Truthy(body.password)
    ensures Handle(users, body, development, plainBase64) == LoginResult(Fail(BadRequest, FIELDS_REQUIRED), None)
  {
  }

  /**
   * An unknown email and a wrong password for a known one get the same answer, 401
   * "Invalid credentials" with no cookie: the answer does not tell which it was.
   */
  lemma SameAnswerForUnknownAndWrong(users: seq<User>, unknown: LoginBody, wrong: LoginBody, development: bool, plainBase64: bool)
    requires Truthy(unknown.email) && Truthy(unknown.password) && Truthy(wrong.email) && Truthy(wrong.password)
    requires forall u :: u in users ==> u.email != unknown.email.value
    requires FindByEmail(users, wrong.email.value).Some?
    requires !Compare(wrong.password.value, FindByEmail(users, wrong.email.value).value.password)
    ensures Handle(users, unknown, development, plainBase64) == Handle(users, wrong, development, plainBase64)
    ensures Handle(users, unknown, development, plainBase64) == LoginResult(Fail(Unauthorized, INVALID_CREDENTIALS), None)
  {
  }

  /**
   * Login succeeds exactly when both fields are given, some user has the email and the
   * password checks against the first such user's credential. The answer then carries that
   * user's role, name and email, and sets an http-only, same-site-strict `token` cookie for
   * path `/` living 3600 seconds, holding a token that carries the user's id, email, name
   * and role, verifies, and lets that user's role through the gate.
   */
  lemma SuccessIssuesSession(users: seq<User>, body: LoginBody, development: bool, plainBase64: bool)
    ensures var r := Handle(users, body, development, plainBase64);
      r.response.status == OK <==>
        && Truthy(body.email) && Truthy(body.password)
        && FindByEmail(users, body.email.value).Some?
        && Compare(body.password.value, FindByEmail(users, body.email.value).value.password)
    ensures var r := Handle(users, body, development, plainBase64);
      r.response.status == OK ==>
        var u := FindByEmail(users, body.email.value).value;
        && u in users && u.email == body.email.value
        && r.response.body == LoginInfo(LOGGED_IN, u.role, u.name, u.email)
        && r.cookie.Some? && r.cookie.value.name == "token" && r.cookie.value.httpOnly
        && r.cookie.value.secure == !development && r.cookie.value.sameSite == "strict"
        && r.cookie.value.maxAge == 3600 && r.cookie.value.path == "/"
        && r.cookie.value.value.expiresIn == 3600
        && Verify(r.cookie.value.value) == Some(Claims(Some(u.id), Some(u.email), Some(u.name), Some(u.role)))
        && Authorize(Some(r.cookie.value.value), [u.role]).Admit?
        && (Decode(r.cookie.value.value).Some? <==> plainBase64)
    ensures var r := Handle(users, body, development, plainBase64);
      r.response.status != OK ==> r.cookie.None?
  {
  }

  /**
   * The issued token verifies until it is 3600 seconds old and not afterwards, when the gate
   * answers 401 "Invalid token" whatever roles the route names.
   */
  lemma {:induction false} TokenLifetime(u: User, plainBase64: bool, age: int, allowedRoles: seq<string>)
    ensures Verify(IssueToken(u, plainBase64).(age := age)).Some? <==> age < TOKEN_LIFETIME
    ensures age >= TOKEN_LIFETIME ==>
              Authorize(Some(IssueToken(u, plainBase64).(age := age)), allowedRoles) == Deny(Fail(Unauthorized, INVALID_TOKEN))
  {
  }

  /** The answer depends on nothing but the users collection: the seminars play no part and nothing is written. */
  lemma ReadsUsersOnly(db: Db, seminars: map<Id, Seminar>, req: Request<LoginBody>, development: bool, plainBase64: bool)
    ensures Route(db.(seminars := seminars), req, development, plainBase64) == Route(db, req, development, plainBase64)
  {
  }
}
