/** The sidebar's item table and the per-role view of it. */
module Navigation {
  import opened Seqs
  import opened Roles

  /** A sidebar entry; `name` is the `label` field of types/navigation.ts, since `label` is a Dafny keyword. */
  datatype NavItem = NavItem(name: string, path: string, roles: seq<string>)

  const Everyone: seq<string> := ["MASTER_ADMIN", "ADMIN", "PROJECT_MANAGER", "SITE_ENGINEER", "VIEWER"]

  const DashboardItem := NavItem("Dashboard", "/dashboard", Everyone)
  const ProjectsItem := NavItem("Projects", "/projects", ["MASTER_ADMIN", "ADMIN", "PROJECT_MANAGER"])
  const ReportsItem := NavItem("Reports", "/reports", Everyone)
  const TasksItem := NavItem("My Tasks", "/tasks", ["SITE_ENGINEER"])
  const ProgressItem := NavItem("Update Progress", "/progress", ["SITE_ENGINEER"])
  const UsersItem := NavItem("Users", "/users", ["MASTER_ADMIN", "ADMIN"])
  const SettingsItem := NavItem("Settings", "/settings", ["MASTER_ADMIN", "ADMIN"])

  const Items: seq<NavItem> :=
    [DashboardItem, ProjectsItem, ReportsItem, TasksItem, ProgressItem, UsersItem, SettingsItem]

  /** `getNavigationForRole`: the items listing the role, in table order. */
  function ForRole(role: string): (r: seq<NavItem>)
    ensures IsSubsequence(r, Items)
    ensures forall item :: item in r <==> item in Items && role in item.roles
  {
    Visible(Items, role)
  }

  /** The item alone when it lists the role, nothing otherwise. */
  function Keep(item: NavItem, role: string): seq<NavItem>
  {
    if role in item.roles then [item] else []
  }

  /** The items of `items` that list the role, in order. */
  function Visible(items: seq<NavItem>, role: string): seq<NavItem>
  {
    Filter(items, (item: NavItem) => role in item.roles)
  }

  /** The kept items of `items`, item by item. */
  function KeepAll(items: seq<NavItem>, role: string): seq<NavItem>
    decreases |items|
  {
    if |items| == 0 then [] else Keep(items[0], role) + KeepAll(items[1..], role)
  }

  /** Filtering by role is keeping each item that lists it, one at a time. */
  lemma {:induction false} VisibleIsKeepAll(items: seq<NavItem>, role: string)
    ensures Visible(items, role) == KeepAll(items, role)
    decreases |items|
  {
    if |items| > 0 {
      FilterUnfold(items, (item: NavItem) => role in item.roles);
      VisibleIsKeepAll(items[1..], role);
    }
  }

  /** The table's items kept one by one, written out. */
  function Menu(role: string): seq<NavItem>
  {
    Keep(DashboardItem, role) + (Keep(ProjectsItem, role) + (Keep(ReportsItem, role) + (Keep(TasksItem, role)
    + (Keep(ProgressItem, role) + (Keep(UsersItem, role) + (Keep(SettingsItem, role) + []))))))
  }

  /** The filter over the table, item by item. */
  lemma ForRoleUnfolded(role: string)
    ensures ForRole(role) == Menu(role)
  {
    VisibleIsKeepAll(Items, role);
    var s6 := [SettingsItem] + [];
    var s5 := [UsersItem] + s6;
    var s4 := [ProgressItem] + s5;
    var s3 := [TasksItem] + s4;
    var s2 := [ReportsItem] + s3;
    var s1 := [ProjectsItem] + s2;
    assert Items == [DashboardItem] + s1;
    KeepAllCons(DashboardItem, s1, role);
    KeepAllCons(ProjectsItem, s2, role);
    KeepAllCons(ReportsItem, s3, role);
    KeepAllCons(TasksItem, s4, role);
    KeepAllCons(ProgressItem, s5, role);
    KeepAllCons(UsersItem, s6, role);
    KeepAllCons(SettingsItem, [], role);
  }

  lemma KeepAllCons(item: NavItem, rest: seq<NavItem>, role: string)
    ensures KeepAll([item] + rest, role) == Keep(item, role) + KeepAll(rest, role)
  {
    assert ([item] + rest)[1..] == rest;
  }

  /** Dashboard and Reports are offered to every role. */
  lemma SharedItems(role: Role)
    ensures DashboardItem in ForRole(role.Name()) && ReportsItem in ForRole(role.Name())
  {
    assert Items[0] == DashboardItem && Items[2] == ReportsItem;
  }

  /** The site engineer's pages are offered to nobody else. */
  lemma EngineerOnlyItems(role: Role)
    ensures TasksItem in ForRole(role.Name()) <==> role == SiteEngineer
    ensures ProgressItem in ForRole(role.Name()) <==> role == SiteEngineer
  {
    assert Items[3] == TasksItem && Items[4] == ProgressItem;
    assert role.Name() in TasksItem.roles <==> role == SiteEngineer;
  }

  /** Users and Settings are offered to the two administrator roles only. */
  lemma AdminOnlyItems(role: Role)
    ensures UsersItem in ForRole(role.Name()) <==> role in {MasterAdmin, Admin}
    ensures SettingsItem in ForRole(role.Name()) <==> role in {MasterAdmin, Admin}
  {
    assert Items[5] == UsersItem && Items[6] == SettingsItem;
    assert role.Name() in UsersItem.roles <==> role in {MasterAdmin, Admin};
  }

  /** The complete menu of every role. */
  lemma ViewerMenu(role: string)
    requires role == "VIEWER"
    ensures ForRole(role) == [DashboardItem, ReportsItem]
  {
    ForRoleUnfolded(role);
    ViewerMenuIs(role);
  }

  lemma ViewerMenuIs(role: string)
    requires role == "VIEWER"
    ensures Menu(role) == [DashboardItem, ReportsItem]
  {
  }

  lemma SiteEngineerMenu(role: string)
    requires role == "SITE_ENGINEER"
    ensures ForRole(role) == [DashboardItem, ReportsItem, TasksItem, ProgressItem]
  {
    ForRoleUnfolded(role);
    SiteEngineerMenuIs(role);
  }

  lemma SiteEngineerMenuIs(role: string)
    requires role == "SITE_ENGINEER"
    ensures Menu(role) == [DashboardItem, ReportsItem, TasksItem, ProgressItem]
  {
    SiteEngineerListings(role);
  }

  lemma SiteEngineerListings(role: string)
    requires role == "SITE_ENGINEER"
    ensures role in Everyone && role !in ProjectsItem.roles && role in TasksItem.roles && role !in UsersItem.roles
  {
  }

  lemma ProjectManagerMenu(role: string)
    requires role == "PROJECT_MANAGER"
    ensures ForRole(role) == [DashboardItem, ProjectsItem, ReportsItem]
  {
    ForRoleUnfolded(role);
    ProjectManagerMenuIs(role);
  }

  lemma ProjectManagerMenuIs(role: string)
    requires role == "PROJECT_MANAGER"
    ensures Menu(role) == [DashboardItem, ProjectsItem, ReportsItem]
  {
    ProjectManagerListings(role);
  }

  lemma ProjectManagerListings(role: string)
    requires role == "PROJECT_MANAGER"
    ensures role in Everyone && role in ProjectsItem.roles && role !in TasksItem.roles && role !in UsersItem.roles
  {
  }

  /** The two administrator roles see the same five items. */
  lemma AdminMenu(role: string)
    requires role == "ADMIN" || role == "MASTER_ADMIN"
    ensures ForRole(role) == [DashboardItem, ProjectsItem, ReportsItem, UsersItem, SettingsItem]
  {
    ForRoleUnfolded(role);
    AdminMenuIs(role);
  }

  lemma AdminMenuIs(role: string)
    requires role == "ADMIN" || role == "MASTER_ADMIN"
    ensures Menu(role) == [DashboardItem, ProjectsItem, ReportsItem, UsersItem, SettingsItem]
  {
    AdminListings(role);
  }

  lemma AdminListings(role: string)
    requires role == "ADMIN" || role == "MASTER_ADMIN"
    ensures role in Everyone && role in ProjectsItem.roles && role !in TasksItem.roles && role in UsersItem.roles
  {
  }

  /** A string that names no role gets an empty menu. */
  lemma UnknownRoleSeesNothing(role: string)
    requires Parse(role).None?
    ensures ForRole(role) == []
  {
    ForRoleUnfolded(role);
    UnknownMenuIs(role);
  }

  lemma UnknownMenuIs(role: string)
    requires Parse(role).None?
    ensures Menu(role) == []
  {
    assert role !in Everyone;
  }
}
