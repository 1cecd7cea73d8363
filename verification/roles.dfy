/**
 * The five user roles. Every tier compares roles as strings (the JWT claim,
 * the allow-lists and the client's `user.role` are all strings), so the
 * datatype here is paired with its wire name and a parser.
 */
module Roles {
  import opened Wrappers

  datatype Role = MasterAdmin | Admin | ProjectManager | SiteEngineer | Viewer {

    /** The string stored in the database, the token and the client. */
    function Name(): string
    {
      match this
      case MasterAdmin => "MASTER_ADMIN"
      case Admin => "ADMIN"
      case ProjectManager => "PROJECT_MANAGER"
      case SiteEngineer => "SITE_ENGINEER"
      case Viewer => "VIEWER"
    }
  }

  const AllRoles: seq<Role> := [MasterAdmin, Admin, ProjectManager, SiteEngineer, Viewer]

  /** The role whose wire name is `s`, if any. */
  function Parse(s: string): (r: Option<Role>)
    ensures r.Some? ==> r.value.Name() == s
    ensures r.None? ==> forall role: Role :: role.Name() != s
  {
    if s == "MASTER_ADMIN" then Some(MasterAdmin)
    else if s == "ADMIN" then Some(Admin)
    else if s == "PROJECT_MANAGER" then Some(ProjectManager)
    else if s == "SITE_ENGINEER" then Some(SiteEngineer)
    else if s == "VIEWER" then Some(Viewer)
    else None
  }

  /** Parsing a role's name gives the role back; distinct roles have distinct names. */
  lemma ParseName(role: Role)
    ensures Parse(role.Name()) == Some(role)
  {
  }

  lemma NameInjective(a: Role, b: Role)
    ensures a.Name() == b.Name() ==> a == b
  {
    ParseName(a);
    ParseName(b);
  }

  /** The wire names of a list of roles, in order. */
  function Names(roles: seq<Role>): (r: seq<string>)
    ensures |r| == |roles|
    ensures forall i :: 0 <= i < |roles| ==> r[i] == roles[i].Name()
  {
    seq(|roles|, i requires 0 <= i < |roles| => roles[i].Name())
  }

  /** A name is in `Names(roles)` exactly when it names one of `roles`. */
  lemma NamesMembership(roles: seq<Role>, role: Role)
    ensures role.Name() in Names(roles) <==> role in roles
  {
    if role.Name() in Names(roles) {
      var i :| 0 <= i < |roles| && Names(roles)[i] == role.Name();
      NameInjective(roles[i], role);
    }
  }
}
