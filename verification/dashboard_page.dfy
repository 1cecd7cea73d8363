/** The role-based choice of the dashboard page. */
module DashboardPage {
  import opened Wrappers
  import opened Roles
  import AuthStore

  datatype DashboardView = AdminDashboard | ProjectManagerDashboard | SiteEngineerDashboard | ViewerDashboard

  /** Which dashboard renders; `None` when there is no user and the page renders nothing. */
  function Choose(user: Option<AuthStore.User>): (d: Option<DashboardView>)
    ensures d.None? <==> user.None?
  {
    match user
    case None => None
    case Some(u) =>
      Some(match u.role
        case "MASTER_ADMIN" => AdminDashboard
        case "ADMIN" => AdminDashboard
        case "PROJECT_MANAGER" => ProjectManagerDashboard
        case "SITE_ENGINEER" => SiteEngineerDashboard
        case "VIEWER" => ViewerDashboard
        case _ => AdminDashboard)
  }

  /** Each role's dashboard; the administrator dashboard is shared and is also the fallback. */
  lemma DashboardPerRole(u: AuthStore.User)
    ensures Choose(Some(u)) == Some(AdminDashboard) <==>
              u.role in {"MASTER_ADMIN", "ADMIN"} || Parse(u.role).None?
    ensures u.role == "PROJECT_MANAGER" ==> Choose(Some(u)) == Some(ProjectManagerDashboard)
    ensures u.role == "SITE_ENGINEER" ==> Choose(Some(u)) == Some(SiteEngineerDashboard)
    ensures u.role == "VIEWER" ==> Choose(Some(u)) == Some(ViewerDashboard)
  {
  }

  /** The three non-administrator roles see three different dashboards. */
  lemma DistinctDashboards(a: Role, b: Role, ua: AuthStore.User, ub: AuthStore.User)
    requires ua.role == a.Name() && ub.role == b.Name()
    requires a !in {MasterAdmin, Admin} && b !in {MasterAdmin, Admin}
    ensures Choose(Some(ua)) == Choose(Some(ub)) <==> a == b
  {
  }
}
