/**
 * The profile page's own role label and badge colours, which differ from
 * the standalone dashboard's.
 */
module ProfilePage {
  import opened Wrappers
  import opened Text
  import opened Roles
  import AuthStore
  import Dashboard

  /** `role.replace(/_/g, " ")`. */
  function Spaced(role: string): (r: string)
    ensures |r| == |role|
    ensures forall i :: 0 <= i < |role| ==> r[i] == if role[i] == '_' then ' ' else role[i]
  {
    seq(|role|, i requires 0 <= i < |role| => if role[i] == '_' then ' ' else role[i])
  }

  /**
   * Where `\b\w` matches: a word character with no word character before
   * it; `afterWord` says whether the text before `t` ended in one.
   */
  predicate WordStart(t: string, i: int, afterWord: bool)
    requires 0 <= i < |t|
  {
    IsWordChar(t[i]) && !(if i == 0 then afterWord else IsWordChar(t[i - 1]))
  }

  /**
   * `.replace(/\b\w/g, c => c.toUpperCase())` as the left-to-right scan the
   * regular expression engine performs.
   */
  function Capitalize(t: string, afterWord: bool): (r: string)
    ensures |r| == |t|
    ensures forall i :: 0 <= i < |t| ==> r[i] == if WordStart(t, i, afterWord) then Upper(t[i]) else t[i]
    decreases |t|
  {
    if |t| == 0 then ""
    else
      var c := if IsWordChar(t[0]) && !afterWord then Upper(t[0]) else t[0];
      var rest := Capitalize(t[1..], IsWordChar(t[0]));
      var r := [c] + rest;
      forall i | 1 <= i < |t|
        ensures r[i] == if WordStart(t, i, afterWord) then Upper(t[i]) else t[i]
      {
        assert r[i] == rest[i - 1] && t[1..][i - 1] == t[i];
        assert WordStart(t, i, afterWord) == WordStart(t[1..], i - 1, IsWordChar(t[0]));
      }
      r
  }

  /** `formatRole`: every word start of the re-spaced role upper-cased, all else kept. */
  function FormatRole(role: string): (r: string)
    ensures |r| == |role|
    ensures forall i :: 0 <= i < |role| ==>
              r[i] == if WordStart(Spaced(role), i, false) then Upper(Spaced(role)[i]) else Spaced(role)[i]
  {
    Capitalize(Spaced(role), false)
  }

  /** No underscore survives, and a role without lower-case letters is only re-spaced. */
  lemma FormatRoleShape(role: string)
    ensures '_' !in FormatRole(role)
    ensures (forall i :: 0 <= i < |role| ==> !IsLowerAscii(role[i])) ==> FormatRole(role) == Spaced(role)
  {
    var r := FormatRole(role);
    forall i | 0 <= i < |role| ensures r[i] != '_' {
    }
  }

  /**
   * A role written in capitals, like every stored role name, is labelled
   * differently on the two pages: here the capitals stay, while the
   * dashboard lower-cases every letter that does not start a word.
   */
  lemma LabelsDiffer(role: string, i: nat)
    requires forall j :: 0 <= j < |role| ==> !IsLowerAscii(role[j])
    requires 0 < i < |role| && role[i - 1] != '_' && IsUpperAscii(role[i])
    ensures FormatRole(role)[i] == role[i]
    ensures Dashboard.FormatRole(role) == Dashboard.Label(role) && Dashboard.Label(role)[i] == Lower(role[i])
    ensures FormatRole(role) != Dashboard.FormatRole(role)
  {
    var p := FormatRole(role);
    FormatRoleShape(role);
    assert p[i] == Spaced(role)[i] == role[i];
    var d := Dashboard.FormatRole(role);
    Dashboard.FormatRoleIsLabel(role);
    assert d[i] == Lower(role[i]);
    assert p[i] != d[i];
  }

  /** The master administrator's label, on both pages. */
  lemma MasterAdminLabels(role: string)
    requires role == MasterAdmin.Name()
    ensures FormatRole(role) == "MASTER ADMIN"
    ensures FormatRole(role) != Dashboard.FormatRole(role)
  {
    MasterAdminCapitals(role);
    MasterAdminSpaced(role);
    FormatRoleShape(role);
    LabelsDiffer(role, 1);
  }

  lemma MasterAdminCapitals(role: string)
    requires role == MasterAdmin.Name()
    ensures forall i :: 0 <= i < |role| ==> !IsLowerAscii(role[i])
    ensures role[0] != '_' && IsUpperAscii(role[1])
  {
  }

  lemma MasterAdminSpaced(role: string)
    requires role == MasterAdmin.Name()
    ensures Spaced(role) == "MASTER ADMIN"
  {
  }

  const AmberBadge := "border-[#F59E0B] bg-[#F59E0B]/10 text-[#F59E0B]"
  const BlueBadge := "border-blue-500 bg-blue-500/10 text-blue-400"
  const GreenBadge := "border-green-500 bg-green-500/10 text-green-400"
  const OrangeBadge := "border-orange-500 bg-orange-500/10 text-orange-400"
  const GrayBadge := "border-gray-500 bg-gray-500/10 text-gray-400"

  /** `getRoleBadgeColor`. */
  function BadgeColor(role: string): string
  {
    match role
    case "MASTER_ADMIN" => AmberBadge
    case "ADMIN" => BlueBadge
    case "PROJECT_MANAGER" => GreenBadge
    case "SITE_ENGINEER" => OrangeBadge
    case "VIEWER" => GrayBadge
    case _ => AmberBadge
  }

  /** Five roles, five different badges. */
  lemma BadgesDistinct(a: Role, b: Role)
    ensures BadgeColor(a.Name()) == BadgeColor(b.Name()) <==> a == b
  {
  }

  /** A string that names no role gets the master administrator's badge. */
  lemma BadgeFallback(other: string)
    requires Parse(other).None?
    ensures BadgeColor(other) == BadgeColor(MasterAdmin.Name())
  {
  }

  /** The role row of the profile card. */
  datatype Profile = Profile(name: string, email: string, roleLabel: string, badge: string, id: string)

  /** The page: nothing without a user, otherwise the card built from the user. */
  function Render(user: Option<AuthStore.User>): (p: Option<Profile>)
    ensures p.None? <==> user.None?
    ensures p.Some? ==> p.value.name == user.value.name && p.value.email == user.value.email
                        && p.value.id == user.value.id && |p.value.roleLabel| == |user.value.role|
    ensures p.Some? ==> p.value.roleLabel == FormatRole(user.value.role)
                        && p.value.badge == BadgeColor(user.value.role)
  {
    match user
    case None => None
    case Some(u) => Some(Profile(u.name, u.email, FormatRole(u.role), BadgeColor(u.role), u.id))
  }
}
