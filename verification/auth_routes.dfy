/**
 * The `/api/auth` router: two public routes and three routes behind
 * `authenticateJWT`, none of them behind a role guard.
 */
module AuthRoutes {
  import opened Wrappers
  import opened Api
  import opened AuthMiddleware
  import opened Router
  import AuthController

  /** The handlers the router names. `getProfile` and `updateProfile` are not part of this model. */
  datatype AuthHandler = Login | RequestAccess | VerifyToken | GetProfile | UpdateProfile

  const Table: seq<Entry<AuthHandler>> := [
    Entry(POST, [Lit("login")], [], Login),
    Entry(POST, [Lit("request-access")], [], RequestAccess),
    Entry(GET, [Lit("verify")], [Authenticate], VerifyToken),
    Entry(GET, [Lit("profile")], [Authenticate], GetProfile),
    Entry(PUT, [Lit("profile")], [Authenticate], UpdateProfile)
  ]

  function Route(verb: Verb, path: seq<string>, header: Option<string>, verify: Verifier): Outcome<AuthHandler>
  {
    Dispatch([], Table, verb, path, header, verify)
  }

  /** Logging in and asking for access need no token at all. */
  lemma PublicRoutes(header: Option<string>, verify: Verifier)
    ensures Route(POST, ["login"], header, verify) == Handled(Login, None)
    ensures Route(POST, ["request-access"], header, verify) == Handled(RequestAccess, None)
  {
    LookupIs(Table, POST, ["login"], 0);
    assert ["request-access"][0] != "login" by { assert |"login"| != |"request-access"|; }
    assert !Matches(Table[0].pattern, ["request-access"]);
    LookupIs(Table, POST, ["request-access"], 1);
  }

  /** What a route guarded by `authenticateJWT` alone does with the request. */
  function Gated(h: AuthHandler, header: Option<string>, verify: Verifier): Outcome<AuthHandler>
  {
    match AuthenticateJWT(header, verify)
    case Respond(status, error) => Refused(status, error)
    case Next(c) => Handled(h, Some(c))
  }

  /** The gated routes answer exactly as `authenticateJWT` does, and reach their handler with its claims. */
  lemma ProtectedRoutes(header: Option<string>, verify: Verifier)
    ensures Route(GET, ["verify"], header, verify) == Gated(VerifyToken, header, verify)
    ensures Route(GET, ["profile"], header, verify) == Gated(GetProfile, header, verify)
    ensures Route(PUT, ["profile"], header, verify) == Gated(UpdateProfile, header, verify)
  {
    VerifyRoute(header, verify);
    ProfileRoutes(header, verify);
  }

  lemma VerifyRoute(header: Option<string>, verify: Verifier)
    ensures Route(GET, ["verify"], header, verify) == Gated(VerifyToken, header, verify)
  {
    DispatchAt([], Table, GET, ["verify"], header, verify, 2, None);
    AuthenticateAlone(Request(header, None), verify);
  }

  lemma ProfileRoutes(header: Option<string>, verify: Verifier)
    ensures Route(GET, ["profile"], header, verify) == Gated(GetProfile, header, verify)
    ensures Route(PUT, ["profile"], header, verify) == Gated(UpdateProfile, header, verify)
  {
    AuthenticateAlone(Request(header, None), verify);
    ProfileSkipsVerify();
    DispatchAt([], Table, GET, ["profile"], header, verify, 3, None);
    DispatchAt([], Table, PUT, ["profile"], header, verify, 4, None);
  }

  /** Only the fourth entry serves `GET /profile`: `/verify` is a different literal. */
  lemma ProfileSkipsVerify()
    ensures forall j :: 0 <= j < 3 ==> !Serves(Table[j], GET, ["profile"])
    ensures forall j :: 0 <= j < 4 ==> !Serves(Table[j], PUT, ["profile"])
  {
    assert ["profile"][0] != "verify" by { assert |"verify"| != |"profile"|; }
    assert !Matches(Table[2].pattern, ["profile"]);
  }

  /** No auth route checks the role: any role that authenticates reaches the protected handlers. */
  lemma AnyRoleReachesProtected(header: Option<string>, verify: Verifier, c: Claims)
    requires Authenticates(header, verify, c)
    ensures Route(GET, ["verify"], header, verify) == Handled(VerifyToken, Some(c))
    ensures Route(GET, ["profile"], header, verify) == Handled(GetProfile, Some(c))
    ensures Route(PUT, ["profile"], header, verify) == Handled(UpdateProfile, Some(c))
  {
    AuthenticatesPasses(header, verify, c);
    ProtectedRoutes(header, verify);
  }

  /**
   * `GET /verify` end to end: behind the gate `req.user` is always set, so
   * the handler's 500 branch is unreachable and the reply echoes the claims.
   */
  function ServeVerify(header: Option<string>, verify: Verifier): (r: Reply<AuthController.Verified>)
    ensures r.Success? <==> AuthenticateJWT(header, verify).Next?
    ensures r.Success? ==>
              var c := AuthenticateJWT(header, verify).user;
              r == Success(200, AuthController.Verified(AuthController.VerifiedUser(c.userId, c.email, c.role)))
    ensures r.Failure? ==> r.status in {401, 500} && r.error != "An error occurred during token verification"
  {
    VerifyRoute(header, verify);
    GateRefusals(header, verify);
    match Route(GET, ["verify"], header, verify)
    case Refused(status, error) => Failure(status, error)
    case Handled(_, user) => AuthController.VerifyToken(user)
    case NotFound => Failure(404, "Route not found")
  }

  /** HEAD on any path is answered as GET on that path, so `HEAD /verify` is gated like `GET /verify`. */
  lemma HeadIsGet(path: seq<string>, header: Option<string>, verify: Verifier)
    ensures Route(HEAD, path, header, verify) == Route(GET, path, header, verify)
  {
    HeadDispatchedAsGet([], Table, path, header, verify);
  }
}
