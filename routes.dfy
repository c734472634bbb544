/** The route guards of frontend/src/App.js: ProtectedRoute, the prospects
    guard with its canAccessProspects rule, and the table of which guards
    wrap which page. Rendering itself is left out; a guard's outcome is a
    `View`. */
module Routes {
  import opened Common
  import opened AuthContext

  const BUSINESS_BROKERS: string := "Business Brokers"
  const LOGIN_PATH: string := "/"
  const DASHBOARD_PATH: string := "/admin-dashboard"

  /** What a guard shows. */
  datatype View = Loading | RedirectTo(path: string) | Render

  /** `ProtectedRoute`: loading first, then a missing user (back to the login
      page), then a required role ("" for none) the user lacks (back to the
      dashboard). */
  function ProtectedRoute(loading: bool, user: Option<SessionUser>, requiredRole: string): (v: View)
    ensures loading ==> v == Loading
    ensures !loading && user.None? ==> v == RedirectTo(LOGIN_PATH)
    ensures !loading && user.Some? && requiredRole != "" && !HasPermission(user, requiredRole) ==>
      v == RedirectTo(DASHBOARD_PATH)
    ensures v == Render <==> !loading && user.Some? && (requiredRole == "" || HasPermission(user, requiredRole))
  {
    if loading then Loading
    else if user.None? then RedirectTo(LOGIN_PATH)
    else if requiredRole != "" && !HasPermission(user, requiredRole) then RedirectTo(DASHBOARD_PATH)
    else Render
  }

  /** `canAccessProspects` of the prospects guard. */
  function CanAccessProspects(user: Option<SessionUser>): (b: bool)
    ensures user.None? ==> !b
    ensures user.Some? && user.value.role in [SUPER_ADMIN, ADMIN] ==> b
    ensures user.Some? && user.value.role == MANAGER ==> (b <==> BUSINESS_BROKERS in user.value.businessUnits)
    ensures user.Some? && user.value.role !in [SUPER_ADMIN, ADMIN, MANAGER] ==> !b
  {
    if user.None? then false
    else if user.value.role == SUPER_ADMIN || user.value.role == ADMIN then true
    else if user.value.role == MANAGER then BUSINESS_BROKERS in user.value.businessUnits
    else false
  }

  /** `ProtectedProspectsRoute`. */
  function ProspectsRoute(loading: bool, user: Option<SessionUser>): (v: View)
    ensures loading ==> v == Loading
    ensures !loading && user.None? ==> v == RedirectTo(LOGIN_PATH)
    ensures v == Render <==> !loading && CanAccessProspects(user)
    ensures !loading && user.Some? && !CanAccessProspects(user) ==> v == RedirectTo(DASHBOARD_PATH)
  {
    if loading then Loading
    else if user.None? then RedirectTo(LOGIN_PATH)
    else if !CanAccessProspects(user) then RedirectTo(DASHBOARD_PATH)
    else Render
  }

  /** Being able to reach prospects implies the manager permission level. */
  lemma ProspectsNeedManagerRank(user: Option<SessionUser>)
    ensures CanAccessProspects(user) ==> HasPermission(user, MANAGER)
  {
  }

  // ---------------------------------------------------------------------------
  // The route table

  datatype Page =
    | LoginPage | DashboardPage | UsersPage | ProspectsPage | CreateProspectPage | DealsPage
    | SettingsPage | BusinessSettingPage | CreateDealPage | ForgetPasswordPage

  /** A guard wrapping a page's element. */
  datatype Guard = Protected(requiredRole: string) | ProspectsGuard

  /** The path without its trailing slashes: React Router v6 lets a route
      pattern be followed by any number of them. */
  function DropTrailingSlashes(path: string): (r: string)
    ensures |r| <= |path| && r == path[..|r|]
    ensures r == "" || r[|r| - 1] != '/'
    ensures forall i :: |r| <= i < |path| ==> path[i] == '/'
  {
    if |path| > 0 && path[|path| - 1] == '/' then DropTrailingSlashes(path[..|path| - 1])
    else path
  }

  /** What a route pattern is compared with: the patterns are matched
      without regard to ASCII case (no route sets `caseSensitive`) and
      without trailing slashes. */
  function RouteKey(path: string): (k: string)
    ensures |k| <= |path|
    ensures forall i :: 0 <= i < |k| ==> k[i] == LowerChar(path[i])
    ensures forall i :: |k| <= i < |path| ==> path[i] == '/'
    ensures k == "" || k[|k| - 1] != '/'
  {
    Lower(DropTrailingSlashes(path))
  }

  /** The route table, by key: `None` for the catch-all redirect. The root
      pattern's key is empty. */
  function PageOfKey(key: string): Option<Page>
  {
    if key == "" then Some(LoginPage)
    else if key == "/admin-dashboard" then Some(DashboardPage)
    else if key == "/admin-dashboard/users" then Some(UsersPage)
    else if key == "/admin-dashboard/prospects" then Some(ProspectsPage)
    else if key == "/admin-dashboard/prospects/create" then Some(CreateProspectPage)
    else if key == "/admin-dashboard/deals" then Some(DealsPage)
    else if key == "/admin-dashboard/settings" then Some(SettingsPage)
    else if key == "/admin-dashboard/business-setting" then Some(BusinessSettingPage)
    else if key == "/deals/create" then Some(CreateDealPage)
    else if key == "/forget-password" then Some(ForgetPasswordPage)
    else None
  }

  /** The page a path shows, or `None` for the catch-all redirect. The root
      pattern matches a non-empty path made only of slashes. */
  function PageAt(path: string): (p: Option<Page>)
    ensures path == "" ==> p.None?
    ensures path != "" ==> p == PageOfKey(RouteKey(path))
  {
    if path == "" then None else PageOfKey(RouteKey(path))
  }

  /** A path written in lower case without a trailing slash is its own key. */
  lemma {:induction false} PlainPathIsKey(path: string)
    requires path != "" && path[|path| - 1] != '/'
    requires forall i :: 0 <= i < |path| ==> !('A' <= path[i] <= 'Z')
    ensures RouteKey(path) == path
  {
    assert DropTrailingSlashes(path) == path;
    assert Lower(path) == path;
  }

  /** Lower-casing a key changes nothing. */
  lemma {:induction false} RouteKeyOfLower(path: string)
    ensures RouteKey(Lower(path)) == RouteKey(path)
  {
    var k := RouteKey(path);
    var l := Lower(path);
    var kl := RouteKey(l);
    assert forall i :: 0 <= i < |path| ==> (l[i] == '/' <==> path[i] == '/');
  }

  /** The guards around a page, outermost first: the dashboard's children sit
      inside the layout's ProtectedRoute. */
  function Guards(p: Page): seq<Guard>
  {
    match p
    case LoginPage => []
    case DashboardPage => [Protected("")]
    case UsersPage => [Protected(""), Protected(SUPER_ADMIN)]
    case ProspectsPage => [Protected(""), ProspectsGuard]
    case CreateProspectPage => [Protected(""), ProspectsGuard]
    case DealsPage => [Protected("")]
    case SettingsPage => [Protected("")]
    case BusinessSettingPage => [Protected(""), Protected(SUPER_ADMIN)]
    case CreateDealPage => []
    case ForgetPasswordPage => []
  }

  function RunGuard(g: Guard, loading: bool, user: Option<SessionUser>): View
  {
    match g
    case Protected(role) => ProtectedRoute(loading, user, role)
    case ProspectsGuard => ProspectsRoute(loading, user)
  }

  /** Nested guards: the outermost one that does not render decides. */
  function RunGuards(gs: seq<Guard>, loading: bool, user: Option<SessionUser>): (v: View)
    ensures v == Render <==> forall i :: 0 <= i < |gs| ==> RunGuard(gs[i], loading, user) == Render
  {
    if gs == [] then Render
    else
      var v := RunGuard(gs[0], loading, user);
      if v != Render then v
      else
        var r := RunGuards(gs[1..], loading, user);
        assert forall i :: 1 <= i < |gs| ==> gs[i] == gs[1..][i - 1];
        r
  }

  /** What visiting a path shows. */
  function Visit(path: string, loading: bool, user: Option<SessionUser>): (v: View)
    ensures PageAt(path).None? ==> v == RedirectTo(LOGIN_PATH)
  {
    match PageAt(path)
    case None => RedirectTo(LOGIN_PATH)
    case Some(p) => RunGuards(Guards(p), loading, user)
  }

  /** A path shows the same as its lower-cased spelling, and as itself with
      one more trailing slash. */
  lemma {:induction false} SpellingsAgree(path: string, loading: bool, user: Option<SessionUser>)
    ensures Visit(Lower(path), loading, user) == Visit(path, loading, user)
    ensures path != "" ==> Visit(path + "/", loading, user) == Visit(path, loading, user)
  {
    RouteKeyOfLower(path);
    assert PageAt(Lower(path)) == PageAt(path);
    if path != "" {
      assert (path + "/")[..|path|] == path;
      assert DropTrailingSlashes(path + "/") == DropTrailingSlashes(path);
      assert PageAt(path + "/") == PageAt(path);
    }
  }

  /** A mixed-case spelling with a trailing slash reaches the users page. */
  lemma {:induction false} MixedCaseUsersPath(loading: bool, user: Option<SessionUser>)
    ensures Visit("/Admin-Dashboard/Users/", loading, user) == Visit("/admin-dashboard/users", loading, user)
  {
    assert Lower("/Admin-Dashboard/Users/") == "/admin-dashboard/users" + "/";
    SpellingsAgree("/Admin-Dashboard/Users/", loading, user);
    SpellingsAgree("/admin-dashboard/users", loading, user);
  }

  /** The dashboard renders exactly for a signed-in user. */
  lemma {:induction false} DashboardNeedsUser(user: Option<SessionUser>)
    ensures Visit(DASHBOARD_PATH, false, user) == Render <==> user.Some?
  {
    PlainPathIsKey(DASHBOARD_PATH);
    assert PageAt(DASHBOARD_PATH) == Some(DashboardPage);
    assert Guards(DashboardPage)[0] == Protected("");
  }

  /** The users and business-setting pages render exactly for a super admin. */
  lemma {:induction false} SuperAdminPages(user: Option<SessionUser>)
    ensures Visit("/admin-dashboard/users", false, user) == Render <==> user.Some? && user.value.role == SUPER_ADMIN
    ensures Visit("/admin-dashboard/business-setting", false, user) == Render <==>
      user.Some? && user.value.role == SUPER_ADMIN
  {
    PlainPathIsKey("/admin-dashboard/users");
    PlainPathIsKey("/admin-dashboard/business-setting");
    assert PageAt("/admin-dashboard/users") == Some(UsersPage);
    assert PageAt("/admin-dashboard/business-setting") == Some(BusinessSettingPage);
    assert Guards(UsersPage)[0] == Protected("") && Guards(UsersPage)[1] == Protected(SUPER_ADMIN);
    assert Guards(BusinessSettingPage)[0] == Protected("") && Guards(BusinessSettingPage)[1] == Protected(SUPER_ADMIN);
  }

  /** Both prospects pages render exactly when canAccessProspects holds. */
  lemma {:induction false} ProspectsPages(user: Option<SessionUser>)
    ensures Visit("/admin-dashboard/prospects", false, user) == Render <==> CanAccessProspects(user)
    ensures Visit("/admin-dashboard/prospects/create", false, user) == Render <==> CanAccessProspects(user)
  {
    PlainPathIsKey("/admin-dashboard/prospects");
    PlainPathIsKey("/admin-dashboard/prospects/create");
    assert PageAt("/admin-dashboard/prospects") == Some(ProspectsPage);
    assert PageAt("/admin-dashboard/prospects/create") == Some(CreateProspectPage);
    assert Guards(ProspectsPage)[0] == Protected("") && Guards(ProspectsPage)[1] == ProspectsGuard;
    assert Guards(CreateProspectPage) == Guards(ProspectsPage);
  }

  /** The deals page needs only a signed-in user; /deals/create has no guard
      at all and renders even while loading or signed out. */
  lemma {:induction false} DealPages(loading: bool, user: Option<SessionUser>)
    ensures Visit("/admin-dashboard/deals", false, user) == Render <==> user.Some?
    ensures Visit("/deals/create", loading, user) == Render
  {
    PlainPathIsKey("/admin-dashboard/deals");
    PlainPathIsKey("/deals/create");
    assert PageAt("/admin-dashboard/deals") == Some(DealsPage);
    assert PageAt("/deals/create") == Some(CreateDealPage);
    assert Guards(DealsPage)[0] == Protected("");
  }
}
