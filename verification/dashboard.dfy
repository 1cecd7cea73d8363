/**
 * The standalone dashboard page: its role label, its badge colours and its
 * logout button.
 */
module Dashboard {
  import opened Text
  import opened Roles
  import AuthStore

  /** One word of the label: its first character as it is, the rest lower-cased. */
  function AdjustWord(w: string): (r: string)
    ensures |r| == |w|
    ensures forall i :: 0 <= i < |w| ==> r[i] == if i == 0 then w[0] else Lower(w[i])
  {
    if |w| == 0 then "" else [w[0]] + LowerString(w[1..])
  }

  /** Every word adjusted, in order. */
  function AdjustWords(words: seq<string>): (r: seq<string>)
    ensures |r| == |words|
    ensures forall i :: 0 <= i < |words| ==> r[i] == AdjustWord(words[i])
  {
    seq(|words|, i requires 0 <= i < |words| => AdjustWord(words[i]))
  }

  /** `formatRole`: split on underscores, adjust each word, join with spaces. */
  function FormatRole(role: string): string
  {
    Join(AdjustWords(Split(role, '_')), ' ')
  }

  /**
   * The label character by character: an underscore becomes a space, a
   * character right after an underscore (or first) stays, any other is
   * lower-cased.
   */
  function Label(role: string): (r: string)
    ensures |r| == |role|
  {
    seq(|role|, i requires 0 <= i < |role| =>
      if role[i] == '_' then ' '
      else if i == 0 || role[i - 1] == '_' then role[i]
      else Lower(role[i]))
  }

  /** A role without underscores is one word. */
  lemma FormatRoleOneWord(w: string)
    requires '_' !in w
    ensures FormatRole(w) == AdjustWord(w)
  {
    SplitNoSeparator(w, '_');
    assert AdjustWords([w]) == [AdjustWord(w)];
  }

  /** The first word, formatted, then a space, then the rest formatted. */
  lemma FormatRoleFirstWord(w: string, rest: string)
    requires '_' !in w
    ensures FormatRole(w + ['_'] + rest) == AdjustWord(w) + [' '] + FormatRole(rest)
  {
    SplitAfterWord(w, '_', rest);
    var tail := Split(rest, '_');
    var caps := AdjustWords([w] + tail);
    assert caps == [AdjustWord(w)] + AdjustWords(tail);
    assert caps[1..] == AdjustWords(tail);
  }

  lemma LabelOneWord(w: string)
    requires '_' !in w
    ensures Label(w) == AdjustWord(w)
  {
  }

  lemma LabelFirstWord(w: string, rest: string)
    requires '_' !in w
    ensures Label(w + ['_'] + rest) == AdjustWord(w) + [' '] + Label(rest)
  {
    LabelOfFirstWord(w, rest);
    LabelAfterFirstWord(w, rest);
  }

  /** Within the first word the label is the adjusted word. */
  lemma LabelOfFirstWord(w: string, rest: string)
    requires '_' !in w
    ensures forall i :: 0 <= i < |w| ==> Label(w + ['_'] + rest)[i] == AdjustWord(w)[i]
  {
    var role := w + ['_'] + rest;
    forall i | 0 <= i < |w|
      ensures Label(role)[i] == AdjustWord(w)[i]
    {
      assert role[i] == w[i];
      if i > 0 {
        assert role[i - 1] == w[i - 1];
      }
    }
  }

  /** After the first underscore the label is the label of the rest. */
  lemma LabelAfterFirstWord(w: string, rest: string)
    ensures forall i :: |w| < i < |w| + 1 + |rest| ==> Label(w + ['_'] + rest)[i] == Label(rest)[i - |w| - 1]
  {
    var role := w + ['_'] + rest;
    forall i | |w| < i < |role|
      ensures Label(role)[i] == Label(rest)[i - |w| - 1]
    {
      var j := i - |w| - 1;
      assert role[i] == rest[j];
      if j > 0 {
        assert role[i - 1] == rest[j - 1];
      }
    }
  }

  /** The split-map-join formatter computes the character-wise label. */
  lemma {:induction false} FormatRoleIsLabel(role: string)
    ensures FormatRole(role) == Label(role)
    decreases |role|
  {
    if '_' !in role {
      FormatRoleOneWord(role);
      LabelOneWord(role);
    } else {
      var k := IndexOf(role, '_');
      var w, rest := role[..k], role[k + 1..];
      assert role == w + ['_'] + rest;
      FormatRoleFirstWord(w, rest);
      LabelFirstWord(w, rest);
      FormatRoleIsLabel(rest);
    }
  }

  /** The label keeps the length, and puts a space exactly where an underscore or a space was. */
  lemma LabelShape(role: string)
    ensures |FormatRole(role)| == |role|
    ensures forall i :: 0 <= i < |role| ==> (FormatRole(role)[i] == ' ' <==> role[i] == '_' || role[i] == ' ')
    ensures '_' !in FormatRole(role)
  {
    FormatRoleIsLabel(role);
    LabelSpaces(role);
  }

  lemma LabelSpaces(role: string)
    ensures forall i :: 0 <= i < |role| ==> (Label(role)[i] == ' ' <==> role[i] == '_' || role[i] == ' ')
    ensures '_' !in Label(role)
  {
    var r := Label(role);
    forall i | 0 <= i < |role|
      ensures r[i] == ' ' <==> role[i] == '_' || role[i] == ' '
      ensures r[i] != '_'
    {
      if role[i] != '_' && !(i == 0 || role[i - 1] == '_') {
        assert r[i] == Lower(role[i]);
      }
    }
  }

  /** The label each role is shown with. */
  function Title(role: Role): string
  {
    match role
    case MasterAdmin => "Master Admin"
    case Admin => "Admin"
    case ProjectManager => "Project Manager"
    case SiteEngineer => "Site Engineer"
    case Viewer => "Viewer"
  }

  /** The labels of the five roles, and of the empty role a missing user falls back to. */
  lemma RoleLabels(role: Role)
    ensures FormatRole(role.Name()) == Title(role)
    ensures FormatRole("") == ""
  {
    FormatRoleOneWord("");
    FormatRoleIsLabel(role.Name());
    match role
    case MasterAdmin => MasterAdminLabel(role.Name());
    case Admin => AdminLabel(role.Name());
    case ProjectManager => ProjectManagerLabel(role.Name());
    case SiteEngineer => SiteEngineerLabel(role.Name());
    case Viewer => ViewerLabel(role.Name());
  }

  lemma MasterAdminLabel(role: string)
    requires role == "MASTER_ADMIN"
    ensures Label(role) == "Master Admin"
  {
  }

  lemma AdminLabel(role: string)
    requires role == "ADMIN"
    ensures Label(role) == "Admin"
  {
  }

  lemma ProjectManagerLabel(role: string)
    requires role == "PROJECT_MANAGER"
    ensures Label(role) == "Project Manager"
  {
  }

  lemma SiteEngineerLabel(role: string)
    requires role == "SITE_ENGINEER"
    ensures Label(role) == "Site Engineer"
  {
  }

  lemma ViewerLabel(role: string)
    requires role == "VIEWER"
    ensures Label(role) == "Viewer"
  {
  }

  /**
   * Whatever the role: the first character of each word is shown as it is
   * (so a lower-case role keeps lower-case initials), and every other
   * character that is not an underscore is lower-cased.
   */
  lemma InitialsKept(role: string)
    ensures |FormatRole(role)| == |role|
    ensures forall i :: 0 <= i < |role| && role[i] != '_' && (i == 0 || role[i - 1] == '_') ==>
              FormatRole(role)[i] == role[i]
    ensures forall i :: 0 < i < |role| && role[i] != '_' && role[i - 1] != '_' ==>
              FormatRole(role)[i] == Lower(role[i])
  {
    FormatRoleIsLabel(role);
    LabelInitials(role);
  }

  lemma LabelInitials(role: string)
    ensures forall i :: 0 <= i < |role| && role[i] != '_' && (i == 0 || role[i - 1] == '_') ==>
              Label(role)[i] == role[i]
    ensures forall i :: 0 < i < |role| && role[i] != '_' && role[i - 1] != '_' ==>
              Label(role)[i] == Lower(role[i])
  {
    var r := Label(role);
    forall i | 0 <= i < |role| && role[i] != '_'
      ensures (i == 0 || role[i - 1] == '_') ==> r[i] == role[i]
      ensures i > 0 && role[i - 1] != '_' ==> r[i] == Lower(role[i])
    {
    }
  }

  const PurpleBadge := "bg-purple-500/10 text-purple-400 border-purple-500/50"
  const BlueBadge := "bg-blue-500/10 text-blue-400 border-blue-500/50"
  const GreenBadge := "bg-green-500/10 text-green-400 border-green-500/50"
  const YellowBadge := "bg-yellow-500/10 text-yellow-400 border-yellow-500/50"
  const GrayBadge := "bg-gray-500/10 text-gray-400 border-gray-500/50"

  /** `getRoleBadgeColor`. */
  function BadgeColor(role: string): string
  {
    match role
    case "MASTER_ADMIN" => PurpleBadge
    case "ADMIN" => BlueBadge
    case "PROJECT_MANAGER" => GreenBadge
    case "SITE_ENGINEER" => YellowBadge
    case "VIEWER" => GrayBadge
    case _ => GrayBadge
  }

  /** Five roles, five different badges. */
  lemma BadgesDistinct(a: Role, b: Role)
    ensures BadgeColor(a.Name()) == BadgeColor(b.Name()) <==> a == b
  {
  }

  /** A string that names no role gets the viewer's badge. */
  lemma BadgeFallback(other: string)
    requires Parse(other).None?
    ensures BadgeColor(other) == BadgeColor(Viewer.Name())
  {
  }

  /** What the logout button does, in order. */
  datatype Effect = Store(action: AuthStore.Action) | Navigate(path: string)

  const HandleLogout: seq<Effect> := [Store(AuthStore.DoLogout), Navigate("/login")]

  /** Effects applied in order to the session and the browser location. */
  function Perform(c: AuthStore.Client, location: string, effects: seq<Effect>): (string, AuthStore.Client)
    decreases |effects|
  {
    if |effects| == 0 then (location, c)
    else match effects[0]
      case Store(a) => Perform(AuthStore.Step(c, a), location, effects[1..])
      case Navigate(p) => Perform(c, p, effects[1..])
  }

  /** The login page is reached with the session already cleared. */
  lemma LogoutThenLogin(c: AuthStore.Client, location: string)
    ensures var (at, d) := Perform(c, location, HandleLogout);
            at == "/login" && !d.state.isAuthenticated && d.state.token.None? && d.state.user.None?
            && AuthStore.TokenKey !in d.storage
  {
    assert HandleLogout[1..] == [Navigate("/login")];
  }
}
