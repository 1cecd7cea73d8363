/** The client-side guard around role-restricted pages. */
module RouteGuard {
  import opened Wrappers
  import AuthStore

  const LoginPath := "/login"
  const AccessDeniedPath := "/access-denied"

  datatype View = RedirectTo(path: string) | RenderChildren

  /** `RoleProtectedRoute`: the login check first, then the role check, which a missing user skips. */
  function Guard(isAuthenticated: bool, user: Option<AuthStore.User>, allowedRoles: seq<string>): (v: View)
    ensures !isAuthenticated ==> v == RedirectTo(LoginPath)
    ensures isAuthenticated && user.Some? && user.value.role !in allowedRoles ==> v == RedirectTo(AccessDeniedPath)
    ensures v == RenderChildren <==> isAuthenticated && (user.None? || user.value.role in allowedRoles)
  {
    if !isAuthenticated then RedirectTo(LoginPath)
    else if user.Some? && user.value.role !in allowedRoles then RedirectTo(AccessDeniedPath)
    else RenderChildren
  }

  /** The guard as the page sees it, reading the session store. */
  function GuardPage(s: AuthStore.AuthState, allowedRoles: seq<string>): View
  {
    Guard(s.isAuthenticated, s.user, allowedRoles)
  }

  /** Widening the allow-list never turns a rendered page into a redirect. */
  lemma GuardMonotone(isAuthenticated: bool, user: Option<AuthStore.User>, a: seq<string>, b: seq<string>)
    requires forall r :: r in a ==> r in b
    ensures Guard(isAuthenticated, user, a) == RenderChildren ==> Guard(isAuthenticated, user, b) == RenderChildren
  {
  }

  /** After logout every guarded page sends the user to the login page, even after a reload. */
  lemma LoggedOutRedirects(c: AuthStore.Client, allowedRoles: seq<string>)
    ensures GuardPage(AuthStore.Logout(c).state, allowedRoles) == RedirectTo(LoginPath)
    ensures GuardPage(AuthStore.Rehydrate(AuthStore.Logout(c).storage).state, allowedRoles) == RedirectTo(LoginPath)
  {
    AuthStore.LogoutSurvivesReload(c);
  }

  /** Right after a successful login the guard lets through exactly the pages that allow the user's role. */
  lemma FreshSessionGuard(c: AuthStore.Client, data: AuthStore.AuthController.LoginData, allowedRoles: seq<string>)
    ensures var s := AuthStore.Login(c, AuthStore.Answered(data)).client.state;
            GuardPage(s, allowedRoles) == RenderChildren <==> data.user.role in allowedRoles
  {
  }
}
