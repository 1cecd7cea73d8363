/**
 * The authentication handlers: `login`, `requestAccess` and `verifyToken`.
 * bcrypt, jsonwebtoken and Zod's email check are oracles in `AuthEnv`; the
 * user and access-request tables are plain values.
 */
module AuthController {
  import opened Wrappers
  import opened Api
  import opened Schema
  import opened AuthMiddleware

  datatype UserRecord = UserRecord(
    id: string, name: string, email: string, passwordHash: string, role: string, isActive: bool)

  /** The user table, looked up by its unique `email` column. */
  type UserTable = map<string, UserRecord>

  predicate KeyedByEmail(users: UserTable)
  {
    forall e :: e in users ==> users[e].email == e
  }

  /**
   * The library calls a handler makes. `sign` is `None` where jsonwebtoken
   * throws: no JWT_SECRET, or an `expiresIn` that is not a timespan it reads.
   */
  datatype AuthEnv = AuthEnv(
    isEmail: string -> bool,                    // Zod's `.email()` format check
    compare: (string, string) -> bool,          // bcrypt.compare(password, passwordHash)
    sign: (Claims, string) -> Option<string>,   // jwt.sign(payload, JWT_SECRET, { expiresIn })
    jwtExpiry: Option<string>)                  // process.env.JWT_EXPIRY

  const InvalidCredentials := "Invalid credentials"
  const AccountNotActive := "Account is not active. Please contact administrator."
  const LoginFailed := "An error occurred during login"

  /** `process.env.JWT_EXPIRY || "7d"`: an unset or empty setting means seven days. */
  function ExpiresIn(setting: Option<string>): (r: string)
    ensures r != ""
    ensures r == "7d" || (setting.Some? && r == setting.value)
    ensures setting.Some? && setting.value != "" ==> r == setting.value
  {
    if setting.Some? && setting.value != "" then setting.value else "7d"
  }


  datatype LoginBody = LoginBody(email: Option<string>, password: Option<string>)
  datatype Credentials = Credentials(email: string, password: string)

  /** The user as the login response shows it: no password hash, no active flag. */
  datatype PublicUser = PublicUser(id: string, name: string, email: string, role: string)
  datatype LoginData = LoginData(accessToken: string, user: PublicUser)

  predicate ValidLogin(body: LoginBody, isEmail: string -> bool)
  {
    && body.email.Some? && isEmail(body.email.value)
    && body.password.Some? && body.password.value != ""
  }

  /** The message of the first key of `loginSchema` that fails, email before password. */
  function FirstLoginIssue(body: LoginBody, isEmail: string -> bool): string
  {
    if !(body.email.Some? && isEmail(body.email.value)) then KeyIssue(body.email, "Invalid email format")
    else KeyIssue(body.password, "Password is required")
  }

  /** The issues of `loginSchema`, email key first. */
  function LoginIssues(body: LoginBody, isEmail: string -> bool): (issues: seq<string>)
    ensures |issues| <= 2
    ensures issues == [] <==> ValidLogin(body, isEmail)
    ensures issues != [] ==> issues[0] == FirstLoginIssue(body, isEmail)
  {
    RequiredString(body.email, isEmail, "Invalid email format")
      + RequiredString(body.password, s => AtLeast(s, 1), "Password is required")
  }

  function ParseLogin(body: LoginBody, isEmail: string -> bool): (p: Parsed<Credentials>)
    ensures p.Valid? <==> body.email.Some? && isEmail(body.email.value)
                          && body.password.Some? && body.password.value != ""
    ensures p.Valid? ==> p.value == Credentials(body.email.value, body.password.value)
    ensures p.Invalid? ==> p.message == LoginIssues(body, isEmail)[0]
  {
    var issues := LoginIssues(body, isEmail);
    if |issues| > 0 then Invalid(issues[0])
    else Valid(Credentials(body.email.value, body.password.value))
  }

  /** The claims a login token carries for `u`. */
  function ClaimsOf(u: UserRecord): Claims
  {
    Claims(u.id, u.email, u.role)
  }

  /**
   * `login`: validate, look up, active check, password check, issue, in that
   * order. A signer that throws lands in the handler's catch-all 500.
   */
  function Login(body: LoginBody, users: UserTable, env: AuthEnv): (r: Reply<LoginData>)
    ensures r.Success? <==>
              && ParseLogin(body, env.isEmail).Valid?
              && body.email.value in users
              && users[body.email.value].isActive
              && env.compare(body.password.value, users[body.email.value].passwordHash)
              && env.sign(ClaimsOf(users[body.email.value]), ExpiresIn(env.jwtExpiry)).Some?
    ensures r.Success? ==>
              var u := users[body.email.value];
              && r.status == 200
              && Some(r.data.accessToken) == env.sign(Claims(u.id, u.email, u.role), ExpiresIn(env.jwtExpiry))
              && r.data.user == PublicUser(u.id, u.name, u.email, u.role)
    ensures r.Failure? ==> r.status in {400, 401, 403, 500}
    ensures r.Failure? && r.status == 500 <==>
              && ParseLogin(body, env.isEmail).Valid?
              && body.email.value in users
              && users[body.email.value].isActive
              && env.compare(body.password.value, users[body.email.value].passwordHash)
              && env.sign(ClaimsOf(users[body.email.value]), ExpiresIn(env.jwtExpiry)).None?
    ensures r.Failure? && r.status == 500 ==> r.error == LoginFailed
  {
    match ParseLogin(body, env.isEmail)
    case Invalid(message) => Failure(400, message)
    case Valid(creds) =>
      if creds.email !in users then Failure(401, InvalidCredentials)
      else
        var u := users[creds.email];
        if !u.isActive then Failure(403, AccountNotActive)
        else if !env.compare(creds.password, u.passwordHash) then Failure(401, InvalidCredentials)
        else
          match env.sign(ClaimsOf(u), ExpiresIn(env.jwtExpiry))
          case None => Failure(500, LoginFailed)
          case Some(token) => Success(200, LoginData(token, PublicUser(u.id, u.name, u.email, u.role)))
  }

  /** With the table keyed by its email column, the user a login returns is the one whose email was sent. */
  lemma LoginEchoesEmail(body: LoginBody, users: UserTable, env: AuthEnv)
    requires KeyedByEmail(users)
    requires Login(body, users, env).Success?
    ensures Login(body, users, env).data.user.email == body.email.value
  {
  }

  /** A malformed body is answered with its first issue before the user table is consulted. */
  lemma LoginValidatesFirst(body: LoginBody, users1: UserTable, users2: UserTable, env: AuthEnv)
    requires |LoginIssues(body, env.isEmail)| > 0
    ensures Login(body, users1, env) == Failure(400, LoginIssues(body, env.isEmail)[0])
    ensures Login(body, users1, env) == Login(body, users2, env)
  {
  }

  /** An unknown email and a wrong password produce the very same reply. */
  lemma UnknownEmailLooksLikeWrongPassword(
    email: string, password: string, users: UserTable, env: AuthEnv, other: UserTable)
    requires env.isEmail(email) && password != ""
    requires email !in users
    requires email in other && other[email].isActive && !env.compare(password, other[email].passwordHash)
    ensures Login(LoginBody(Some(email), Some(password)), users, env)
         == Login(LoginBody(Some(email), Some(password)), other, env)
         == Failure(401, InvalidCredentials)
  {
  }

  /** An inactive account is refused with 403 without looking at the password. */
  lemma InactiveRefusedBeforePassword(
    email: string, password: string, users: UserTable, env: AuthEnv, compare': (string, string) -> bool)
    requires env.isEmail(email) && password != ""
    requires email in users && !users[email].isActive
    ensures Login(LoginBody(Some(email), Some(password)), users, env) == Failure(403, AccountNotActive)
    ensures Login(LoginBody(Some(email), Some(password)), users, env)
         == Login(LoginBody(Some(email), Some(password)), users, env.(compare := compare'))
  {
  }

  /**
   * A token issued by a successful login, sent back as "Bearer <token>",
   * passes `authenticateJWT` with the user's id, email and role, provided the
   * verifier accepts what the signer produced.
   */
  lemma IssuedTokenAuthenticates(body: LoginBody, users: UserTable, env: AuthEnv, verify: Verifier)
    requires Login(body, users, env).Success?
    requires forall c: Claims :: env.sign(c, ExpiresIn(env.jwtExpiry)).Some? ==>
               verify(env.sign(c, ExpiresIn(env.jwtExpiry)).value) == Decoded(c)
    requires var t := Login(body, users, env).data.accessToken; t != "" && ' ' !in t
    ensures var t := Login(body, users, env).data.accessToken;
            var u := users[body.email.value];
            AuthenticateJWT(Some("Bearer " + t), verify) == Next(Claims(u.id, u.email, u.role))
  {
    var t := Login(body, users, env).data.accessToken;
    var u := users[body.email.value];
    TokenFieldOf("Bearer", t, "");
    assert "Bearer " + t == "Bearer" + " " + t + "";
    assert verify(env.sign(ClaimsOf(u), ExpiresIn(env.jwtExpiry)).value) == Decoded(ClaimsOf(u));
  }

  datatype AccessRequestBody = AccessRequestBody(
    name: Option<string>, email: Option<string>, company: Option<string>, message: Option<string>)

  datatype AccessRequest = AccessRequest(id: string, name: string, email: string, company: string, message: string)

  datatype Submitted = Submitted(message: string, requestId: string)

  const NameTooShort := "Name must be at least 2 characters"
  const CompanyTooShort := "Company name must be at least 2 characters"
  const MessageTooShort := "Message must be at least 10 characters"

  predicate ValidAccessRequest(body: AccessRequestBody, isEmail: string -> bool)
  {
    && body.name.Some? && |body.name.value| >= 2
    && body.email.Some? && isEmail(body.email.value)
    && body.company.Some? && |body.company.value| >= 2
    && body.message.Some? && |body.message.value| >= 10
  }

  /** The message of the first key of `accessRequestSchema` that fails, in key order. */
  function FirstAccessRequestIssue(body: AccessRequestBody, isEmail: string -> bool): string
  {
    if !(body.name.Some? && |body.name.value| >= 2) then KeyIssue(body.name, NameTooShort)
    else if !(body.email.Some? && isEmail(body.email.value)) then KeyIssue(body.email, "Invalid email format")
    else if !(body.company.Some? && |body.company.value| >= 2) then KeyIssue(body.company, CompanyTooShort)
    else KeyIssue(body.message, MessageTooShort)
  }

  /** The issues of `accessRequestSchema`, in key order. */
  function AccessRequestIssues(body: AccessRequestBody, isEmail: string -> bool): (issues: seq<string>)
    ensures |issues| <= 4
    ensures issues != [] ==> issues[0] == FirstAccessRequestIssue(body, isEmail)
  {
    RequiredString(body.name, s => AtLeast(s, 2), NameTooShort)
      + RequiredString(body.email, isEmail, "Invalid email format")
      + RequiredString(body.company, s => AtLeast(s, 2), CompanyTooShort)
      + RequiredString(body.message, s => AtLeast(s, 10), MessageTooShort)
  }

  lemma AccessRequestIssuesEmptyIff(body: AccessRequestBody, isEmail: string -> bool)
    ensures AccessRequestIssues(body, isEmail) == [] <==> ValidAccessRequest(body, isEmail)
  {
  }

  /**
   * What one `requestAccess` call leaves behind: the reply, the request
   * table, the notification mail it tried to send, and whether it logged
   * that the mail failed.
   */
  datatype AccessOutcome = AccessOutcome(
    reply: Reply<Submitted>, requests: seq<AccessRequest>, mailed: Option<AccessRequest>, mailErrorLogged: bool)

  /**
   * `requestAccess`: validate, refuse an email that already has an account,
   * store the request, then try to notify by mail. `mailFails` says whether
   * the notification throws; the handler catches that, logs it and still
   * answers 201.
   */
  function RequestAccess(
    body: AccessRequestBody, users: UserTable, requests: seq<AccessRequest>,
    newId: string, isEmail: string -> bool, mailFails: bool): (out: AccessOutcome)
    ensures out.reply.Success? <==> ValidAccessRequest(body, isEmail) && body.email.value !in users
    ensures out.reply.Success? ==>
              var stored := AccessRequest(newId, body.name.value, body.email.value,
                                          body.company.value, body.message.value);
              && out.reply == Success(201, Submitted("Access request submitted successfully", newId))
              && out.requests == requests + [stored]
              && out.mailed == Some(stored)
              && out.mailErrorLogged == mailFails
    ensures out.reply.Failure? ==>
              out.reply.status == 400 && out.requests == requests && out.mailed == None && !out.mailErrorLogged
    ensures !ValidAccessRequest(body, isEmail) ==> out.reply.error == AccessRequestIssues(body, isEmail)[0]
    ensures ValidAccessRequest(body, isEmail) && body.email.value in users ==>
              out.reply.error == "An account with this email already exists"
  {
    var issues := AccessRequestIssues(body, isEmail);
    AccessRequestIssuesEmptyIff(body, isEmail);
    if |issues| > 0 then AccessOutcome(Failure(400, issues[0]), requests, None, false)
    else if body.email.value in users then
      AccessOutcome(Failure(400, "An account with this email already exists"), requests, None, false)
    else
      var stored := AccessRequest(newId, body.name.value, body.email.value, body.company.value, body.message.value);
      AccessOutcome(
        Success(201, Submitted("Access request submitted successfully", newId)),
        requests + [stored], Some(stored), mailFails)
  }

  /**
   * A failing notification mail is only logged: the reply, the stored
   * requests and the mail attempted are those of a mail that goes through,
   * and the failure shows in the log exactly when a mail was attempted.
   */
  lemma MailFailureIgnored(
    body: AccessRequestBody, users: UserTable, requests: seq<AccessRequest>, newId: string, isEmail: string -> bool)
    ensures var failed := RequestAccess(body, users, requests, newId, isEmail, true);
            var sent := RequestAccess(body, users, requests, newId, isEmail, false);
            && failed.reply == sent.reply
            && failed.requests == sent.requests
            && failed.mailed == sent.mailed
            && !sent.mailErrorLogged
            && (failed.mailErrorLogged <==> failed.mailed.Some?)
  {
  }

  datatype VerifiedUser = VerifiedUser(id: string, email: string, role: string)

  /** The reply payload nests the identity under `user`. */
  datatype Verified = Verified(user: VerifiedUser)

  /**
   * `verifyToken`: echoes the identity the gate attached. Reading a field of
   * a missing `req.user` throws, which the handler turns into a 500.
   */
  function VerifyToken(user: Option<Claims>): (r: Reply<Verified>)
    ensures r.Success? <==> user.Some?
    ensures user.Some? ==> r == Success(200, Verified(VerifiedUser(user.value.userId, user.value.email, user.value.role)))
    ensures user.None? ==> r == Failure(500, "An error occurred during token verification")
  {
    match user
    case Some(c) => Success(200, Verified(VerifiedUser(c.userId, c.email, c.role)))
    case None => Failure(500, "An error occurred during token verification")
  }
}
