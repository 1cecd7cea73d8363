/** Where the client's rules and the server's rules meet. */
module CrossTier {
  import opened Wrappers
  import opened Roles
  import opened AuthMiddleware
  import Navigation
  import Api
  import Text
  import CreateProjectDrawer
  import ProjectController
  import AuthController

  /** The sidebar offers "Projects" to exactly the roles the server lets create and edit projects. */
  lemma ProjectsLinkMatchesWriteGuard(role: Role, userId: string, email: string)
    ensures (set r | r in Navigation.ProjectsItem.roles) == (set r | r in ProjectManagerRoles)
    ensures Navigation.ProjectsItem in Navigation.ForRole(role.Name()) <==>
              RequireRole(ProjectManagerRoles, Some(Claims(userId, email, role.Name()))).Next?
  {
  }

  /**
   * The drawer lets a one-character name through, and the server answers
   * that very form with 400 and its own minimum-length message, whatever
   * else the form holds.
   */
  lemma OneCharacterNameRejected(
    f: CreateProjectDrawer.Form, toIso: string -> string, caller: Claims, users: AuthController.UserTable,
    table: ProjectController.ProjectTable, newId: string, initialStatus: string, isDatetime: string -> bool)
    requires |f.name| == 1 && !Text.IsSpace(f.name[0])
    requires !Text.IsBlank(f.location) && f.startDate != "" && !CreateProjectDrawer.EndsEarly(f)
    ensures CreateProjectDrawer.Validate(f).1
    ensures var body := CreateProjectDrawer.Payload(f, toIso);
            var (reply, after) := ProjectController.CreateProject(body, caller, users, table, newId, initialStatus, isDatetime);
            reply == Api.Failure(400, "Project name must be at least 2 characters") && after == table
  {
    CreateProjectDrawer.ValidatePasses(f);
    var body := CreateProjectDrawer.Payload(f, toIso);
    var issues := ProjectController.CreateIssues(body, isDatetime);
    assert issues[0] == "Project name must be at least 2 characters";
  }
}
