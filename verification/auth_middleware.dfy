/**
 * The backend's request gates: `authenticateJWT`, `requireRole` with its
 * three preset allow-lists, and the fixed-order chaining Express applies to
 * them. Token verification is an oracle, so each gate is a total decision
 * from the request to "respond with status and message" or "call next".
 */
module AuthMiddleware {
  import opened Wrappers
  import opened Text
  import opened Roles

  /** The decoded token payload, attached to the request as `req.user`. */
  datatype Claims = Claims(userId: string, email: string, role: string)

  /**
   * What `jwt.verify` does with a token: returns the payload, throws a
   * `JsonWebTokenError` (expired tokens and bad signatures belong to this
   * class), or throws anything else.
   */
  datatype VerifyOutcome = Decoded(claims: Claims) | TokenError | OtherError

  type Verifier = string -> VerifyOutcome

  /** A gate either answers the request itself or hands it on to `next`. */
  datatype GateResult = Respond(status: int, error: string) | Next(user: Claims)

  const AuthenticationRequired := "Authentication required"
  const InvalidTokenFormat := "Invalid token format"
  const InvalidOrExpiredToken := "Invalid or expired token"
  const AuthenticationError := "Authentication error"
  const InsufficientPermissions := "Insufficient permissions"

  /** The token slot of an Authorization header: field [1] of `header.split(" ")`, if there is one. */
  function TokenField(header: string): (t: Option<string>)
    ensures t.Some? ==> ' ' !in t.value
    ensures t.None? <==> ' ' !in header
  {
    var parts := Split(header, ' ');
    SplitHasTwoPartsIff(header);
    if |parts| >= 2 then Some(parts[1]) else None
  }

  lemma SplitHasTwoPartsIff(h: string)
    ensures |Split(h, ' ')| >= 2 <==> ' ' in h
  {
    if ' ' in h {
      JoinSplit(h, ' ');
    } else {
      SplitNoSeparator(h, ' ');
    }
  }

  /**
   * Any first word, one space, a space-free token and then nothing or a
   * further space: the token is what comes out. The first word is never
   * looked at, so "Basic X" yields the same token as "Bearer X".
   */
  lemma TokenFieldOf(scheme: string, token: string, tail: string)
    requires ' ' !in scheme && ' ' !in token
    requires tail == "" || tail[0] == ' '
    ensures TokenField(scheme + " " + token + tail) == Some(token)
  {
    var h := scheme + " " + token + tail;
    assert h == scheme + [' '] + (token + tail);
    SplitAfterWord(scheme, ' ', token + tail);
    if tail == "" {
      assert token + tail == token;
      SplitNoSeparator(token, ' ');
    } else {
      assert token + tail == token + [' '] + tail[1..];
      SplitAfterWord(token, ' ', tail[1..]);
    }
  }

  /** Replacing the first word of a header by any other space-free word changes nothing. */
  lemma SchemeIgnored(a: string, b: string, rest: string)
    requires ' ' !in a && ' ' !in b
    ensures TokenField(a + " " + rest) == TokenField(b + " " + rest)
  {
    assert a + " " + rest == a + [' '] + rest;
    assert b + " " + rest == b + [' '] + rest;
    SplitAfterWord(a, ' ', rest);
    SplitAfterWord(b, ' ', rest);
  }

  /** `authenticateJWT`: header check, token extraction, verification, in that order. */
  function AuthenticateJWT(header: Option<string>, verify: Verifier): (r: GateResult)
    ensures header.None? || header == Some("") ==> r == Respond(401, AuthenticationRequired)
    ensures (header.Some? && header.value != "" && TokenField(header.value) in {None, Some("")})
              ==> r == Respond(401, InvalidTokenFormat)
    ensures r.Next? ==>
              && header.Some?
              && TokenField(header.value).Some?
              && TokenField(header.value).value != ""
              && verify(TokenField(header.value).value) == Decoded(r.user)
    ensures header.Some? && TokenField(header.value).Some? && TokenField(header.value).value != "" ==>
              match verify(TokenField(header.value).value)
              case Decoded(c) => r == Next(c)
              case TokenError => r == Respond(401, InvalidOrExpiredToken)
              case OtherError => r == Respond(500, AuthenticationError)
  {
    match header
    case None => Respond(401, AuthenticationRequired)
    case Some(h) =>
      if h == "" then Respond(401, AuthenticationRequired)
      else
        match TokenField(h)
        case None => Respond(401, InvalidTokenFormat)
        case Some(token) =>
          if token == "" then Respond(401, InvalidTokenFormat)
          else
            match verify(token)
            case Decoded(claims) => Next(claims)
            case TokenError => Respond(401, InvalidOrExpiredToken)
            case OtherError => Respond(500, AuthenticationError)
  }

  /** The gate refuses with 401 and one of three messages, or with 500 when verification itself broke. */
  lemma GateRefusals(header: Option<string>, verify: Verifier)
    ensures var r := AuthenticateJWT(header, verify);
            r.Respond? ==>
              || (r.status == 401 && r.error in {AuthenticationRequired, InvalidTokenFormat, InvalidOrExpiredToken})
              || (r.status == 500 && r.error == AuthenticationError)
  {
  }

  /** Whatever the verifier says, the gate never passes a request that carries no token. */
  lemma FailsClosed(header: Option<string>, verify: Verifier)
    requires header.None? || ' ' !in header.value
    ensures AuthenticateJWT(header, verify).Respond?
    ensures AuthenticateJWT(header, verify).status == 401
  {
  }

  /** Expired and forged tokens are indistinguishable to the caller. */
  lemma TokenErrorsLookAlike(header: Option<string>, v1: Verifier, v2: Verifier)
    requires header.Some? && TokenField(header.value).Some?
    requires var t := TokenField(header.value).value; v1(t) == TokenError && v2(t) == TokenError
    ensures AuthenticateJWT(header, v1) == AuthenticateJWT(header, v2)
  {
  }

  /** `requireRole(allowedRoles)`: missing identity is 401, a role outside the list is 403. */
  function RequireRole(allowed: seq<string>, user: Option<Claims>): (r: GateResult)
    ensures r.Next? <==> user.Some? && user.value.role in allowed
    ensures r.Next? ==> r.user == user.value
    ensures user.None? ==> r == Respond(401, AuthenticationRequired)
    ensures user.Some? && user.value.role !in allowed ==> r == Respond(403, InsufficientPermissions)
  {
    match user
    case None => Respond(401, AuthenticationRequired)
    case Some(u) =>
      if u.role in allowed then Next(u) else Respond(403, InsufficientPermissions)
  }

  const MasterAdminRoles: seq<string> := ["MASTER_ADMIN"]
  const AdminRoles: seq<string> := ["MASTER_ADMIN", "ADMIN"]
  const ProjectManagerRoles: seq<string> := ["MASTER_ADMIN", "ADMIN", "PROJECT_MANAGER"]

  /** The preset allow-lists are exactly the role names they are spelled with. */
  lemma PresetNames()
    ensures MasterAdminRoles == Names([MasterAdmin])
    ensures AdminRoles == Names([MasterAdmin, Admin])
    ensures ProjectManagerRoles == Names([MasterAdmin, Admin, ProjectManager])
  {
  }

  /** Widening the allow-list never turns a pass into a refusal. */
  lemma RequireRoleMonotone(a: seq<string>, b: seq<string>, user: Option<Claims>)
    requires forall x :: x in a ==> x in b
    requires RequireRole(a, user).Next?
    ensures RequireRole(b, user) == RequireRole(a, user)
  {
  }

  /** master-admin-only ⊆ admin-and-above ⊆ project-manager-and-above. */
  lemma PresetsNest(user: Option<Claims>)
    ensures RequireRole(MasterAdminRoles, user).Next? ==> RequireRole(AdminRoles, user).Next?
    ensures RequireRole(AdminRoles, user).Next? ==> RequireRole(ProjectManagerRoles, user).Next?
  {
  }

  /** Which of the five roles each preset lets through. */
  lemma PresetAllowSets(c: Claims, role: Role)
    requires c.role == role.Name()
    ensures RequireRole(MasterAdminRoles, Some(c)).Next? <==> role == MasterAdmin
    ensures RequireRole(AdminRoles, Some(c)).Next? <==> role in {MasterAdmin, Admin}
    ensures RequireRole(ProjectManagerRoles, Some(c)).Next? <==> role in {MasterAdmin, Admin, ProjectManager}
  {
  }

  /** One middleware in a route's chain. */
  datatype Guard = Authenticate | Authorize(allowed: seq<string>)

  /** The part of an Express request the gates read and write. */
  datatype Request = Request(header: Option<string>, user: Option<Claims>)

  datatype ChainResult = Halted(status: int, error: string) | Passed(user: Option<Claims>)

  /** Runs the guards left to right; the first one that responds ends the request. */
  function RunChain(guards: seq<Guard>, req: Request, verify: Verifier): (r: ChainResult)
    ensures r.Passed? && Authenticate in guards ==> r.user.Some?
    ensures r.Passed? && Authenticate !in guards ==> r.user == req.user
    ensures r.Passed? ==> forall i :: 0 <= i < |guards| && guards[i].Authorize? && Authenticate !in guards[i+1..] ==>
              r.user.Some? && r.user.value.role in guards[i].allowed
    decreases |guards|
  {
    if |guards| == 0 then Passed(req.user)
    else
      var step := match guards[0]
        case Authenticate => AuthenticateJWT(req.header, verify)
        case Authorize(allowed) => RequireRole(allowed, req.user);
      match step
      case Respond(status, error) => Halted(status, error)
      case Next(user) =>
        var r := RunChain(guards[1..], req.(user := Some(user)), verify);
        assert forall i :: 1 <= i < |guards| ==> guards[i] == guards[1..][i - 1] && guards[i+1..] == guards[1..][i..];
        r
  }

  /** A chain that authenticates first answers a tokenless request with 401, whatever follows. */
  lemma AuthenticateFirstWins(rest: seq<Guard>, req: Request, verify: Verifier)
    requires req.header.None? || ' ' !in req.header.value
    ensures RunChain([Authenticate] + rest, req, verify).Halted?
    ensures RunChain([Authenticate] + rest, req, verify).status == 401
  {
  }

  /** A chain of `authenticateJWT` alone answers as the gate does, or passes on its claims. */
  lemma AuthenticateAlone(req: Request, verify: Verifier)
    ensures RunChain([Authenticate], req, verify) ==
              match AuthenticateJWT(req.header, verify)
              case Respond(status, error) => Halted(status, error)
              case Next(user) => Passed(Some(user))
  {
    assert [Authenticate][1..] == [];
  }

  /** A chain of one role guard alone answers as the guard does, or passes the user on. */
  lemma AuthorizeAlone(allowed: seq<string>, req: Request, verify: Verifier)
    ensures RunChain([Authorize(allowed)], req, verify) ==
              match RequireRole(allowed, req.user)
              case Respond(status, error) => Halted(status, error)
              case Next(user) => Passed(Some(user))
  {
    assert [Authorize(allowed)][1..] == [];
  }
}
