/**
 * The `/api/projects` router: `authenticateJWT` for every request that
 * enters it, then a per-route role guard for the writing routes.
 */
module ProjectRoutes {
  import opened Wrappers
  import opened Roles
  import opened AuthMiddleware
  import opened Router

  datatype ProjectHandler = GetProjects | GetProject | CreateProject | UpdateProject | DeleteProject

  const RouterGuards: seq<Guard> := [Authenticate]

  const Table: seq<Entry<ProjectHandler>> := [
    Entry(GET, [], [], GetProjects),
    Entry(GET, [Param], [], GetProject),
    Entry(POST, [], [Authorize(ProjectManagerRoles)], CreateProject),
    Entry(PUT, [Param], [Authorize(ProjectManagerRoles)], UpdateProject),
    Entry(DELETE, [Param], [Authorize(AdminRoles)], DeleteProject)
  ]

  function Route(verb: Verb, path: seq<string>, header: Option<string>, verify: Verifier): Outcome<ProjectHandler>
  {
    Dispatch(RouterGuards, Table, verb, path, header, verify)
  }

  /** A request without a usable token is answered 401 before any route, even one that does not exist, is chosen. */
  lemma AuthenticateRunsFirst(verb: Verb, path: seq<string>, header: Option<string>, verify: Verifier)
    requires header.None? || ' ' !in header.value
    ensures Route(verb, path, header, verify).Refused?
    ensures Route(verb, path, header, verify).status == 401
  {
    assert RouterGuards == [Authenticate] + [];
    AuthenticateFirstWins([], Request(header, None), verify);
  }

  /** Whatever `authenticateJWT` answers is the router's answer, on every route. */
  lemma GateAnswersFirst(verb: Verb, path: seq<string>, header: Option<string>, verify: Verifier)
    requires AuthenticateJWT(header, verify).Respond?
    ensures Route(verb, path, header, verify)
         == Refused(AuthenticateJWT(header, verify).status, AuthenticateJWT(header, verify).error)
  {
  }

  /** Any request the router lets through reaches its handler with the verified identity attached. */
  lemma HandlersSeeIdentity(verb: Verb, path: seq<string>, header: Option<string>, verify: Verifier)
    requires Route(verb, path, header, verify).Handled?
    ensures AuthenticateJWT(header, verify).Next?
    ensures Route(verb, path, header, verify).user == Some(AuthenticateJWT(header, verify).user)
  {
    var entry := Lookup(Table, verb, path).value;
    assert entry in Table;
  }

  /**
   * The (role, route) matrix for an authenticated caller: both reads are open
   * to every role, create and update to project managers and above, delete to
   * admins and above; everyone else gets 403.
   */
  lemma RoleMatrix(header: Option<string>, verify: Verifier, c: Claims, role: Role, id: string)
    requires Authenticates(header, verify, c) && c.role == role.Name()
    requires id != ""
    ensures Route(GET, [], header, verify) == Handled(GetProjects, Some(c))
    ensures Route(GET, [id], header, verify) == Handled(GetProject, Some(c))
    ensures Route(POST, [], header, verify) ==
              if role in {MasterAdmin, Admin, ProjectManager} then Handled(CreateProject, Some(c))
              else Refused(403, InsufficientPermissions)
    ensures Route(PUT, [id], header, verify) ==
              if role in {MasterAdmin, Admin, ProjectManager} then Handled(UpdateProject, Some(c))
              else Refused(403, InsufficientPermissions)
    ensures Route(DELETE, [id], header, verify) ==
              if role in {MasterAdmin, Admin} then Handled(DeleteProject, Some(c))
              else Refused(403, InsufficientPermissions)
  {
    ReadRoutes(header, verify, c, id);
    PresetAllowSets(c, role);
    CreateRoute(header, verify, c);
    UpdateRoute(header, verify, c, id);
    DeleteRoute(header, verify, c, id);
  }

  /** An authenticated caller's `user` after the router's own guard. */
  lemma RouterGuardPasses(header: Option<string>, verify: Verifier, c: Claims)
    requires Authenticates(header, verify, c)
    ensures RunChain(RouterGuards, Request(header, None), verify) == Passed(Some(c))
  {
    AuthenticatesPasses(header, verify, c);
    AuthenticateAlone(Request(header, None), verify);
  }

  /** A route guarded by one role preset: through with the caller when the role is listed, 403 otherwise. */
  lemma GuardedRoute(entry: Entry<ProjectHandler>, header: Option<string>, verify: Verifier, c: Claims, allowed: seq<string>)
    requires entry.guards == [Authorize(allowed)]
    ensures AfterGuards(entry, header, Some(c), verify) ==
              if RequireRole(allowed, Some(c)).Next? then Handled(entry.handler, Some(c)) else Refused(403, InsufficientPermissions)
  {
    AuthorizeAlone(allowed, Request(header, Some(c)), verify);
  }

  lemma ReadRoutes(header: Option<string>, verify: Verifier, c: Claims, id: string)
    requires Authenticates(header, verify, c)
    requires id != ""
    ensures Route(GET, [], header, verify) == Handled(GetProjects, Some(c))
    ensures Route(GET, [id], header, verify) == Handled(GetProject, Some(c))
  {
    RouterGuardPasses(header, verify, c);
    DispatchAt(RouterGuards, Table, GET, [], header, verify, 0, Some(c));
    assert !Matches(Table[0].pattern, [id]);
    DispatchAt(RouterGuards, Table, GET, [id], header, verify, 1, Some(c));
  }

  lemma CreateRoute(header: Option<string>, verify: Verifier, c: Claims)
    requires Authenticates(header, verify, c)
    ensures Route(POST, [], header, verify) ==
              if RequireRole(ProjectManagerRoles, Some(c)).Next? then Handled(CreateProject, Some(c))
              else Refused(403, InsufficientPermissions)
  {
    RouterGuardPasses(header, verify, c);
    DispatchAt(RouterGuards, Table, POST, [], header, verify, 2, Some(c));
    GuardedRoute(Table[2], header, verify, c, ProjectManagerRoles);
  }

  lemma UpdateRoute(header: Option<string>, verify: Verifier, c: Claims, id: string)
    requires Authenticates(header, verify, c)
    requires id != ""
    ensures Route(PUT, [id], header, verify) ==
              if RequireRole(ProjectManagerRoles, Some(c)).Next? then Handled(UpdateProject, Some(c))
              else Refused(403, InsufficientPermissions)
  {
    RouterGuardPasses(header, verify, c);
    DispatchAt(RouterGuards, Table, PUT, [id], header, verify, 3, Some(c));
    GuardedRoute(Table[3], header, verify, c, ProjectManagerRoles);
  }

  lemma DeleteRoute(header: Option<string>, verify: Verifier, c: Claims, id: string)
    requires Authenticates(header, verify, c)
    requires id != ""
    ensures Route(DELETE, [id], header, verify) ==
              if RequireRole(AdminRoles, Some(c)).Next? then Handled(DeleteProject, Some(c))
              else Refused(403, InsufficientPermissions)
  {
    RouterGuardPasses(header, verify, c);
    DispatchAt(RouterGuards, Table, DELETE, [id], header, verify, 4, Some(c));
    GuardedRoute(Table[4], header, verify, c, AdminRoles);
  }

  /** A method or path no route serves still has to pass the token check, and then falls through to 404. */
  lemma UnroutedAfterGate(verb: Verb, path: seq<string>, header: Option<string>, verify: Verifier, c: Claims)
    requires Authenticates(header, verify, c)
    requires forall k :: 0 <= k < |Table| ==> !Serves(Table[k], verb, path)
    ensures Route(verb, path, header, verify) == NotFound
  {
    RouterGuardPasses(header, verify, c);
    UnroutedFallsThrough(RouterGuards, Table, verb, path, header, verify, Some(c));
  }

  /** PATCH is registered nowhere, and DELETE needs an id. */
  lemma UnroutedExamples(header: Option<string>, verify: Verifier, c: Claims, id: string)
    requires Authenticates(header, verify, c)
    ensures Route(PATCH, [id], header, verify) == NotFound
    ensures Route(DELETE, [], header, verify) == NotFound
  {
    UnroutedAfterGate(PATCH, [id], header, verify, c);
    UnroutedAfterGate(DELETE, [], header, verify, c);
  }

  /** HEAD on any path is answered as GET on that path: the token check first, then the read routes. */
  lemma HeadIsGet(path: seq<string>, header: Option<string>, verify: Verifier)
    ensures Route(HEAD, path, header, verify) == Route(GET, path, header, verify)
  {
    HeadDispatchedAsGet(RouterGuards, Table, path, header, verify);
  }
}
