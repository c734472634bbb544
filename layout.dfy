/** The sidebar and top bar of frontend/src/components/AdminLayout.js: its own
    copy of canAccessProspects, which navigation links are listed, and the
    avatar letter. */
module Layout {
  import opened Common
  import opened AuthContext
  import Routes

  /** The layout's own copy of `canAccessProspects`. */
  function CanAccessProspects(user: Option<SessionUser>): bool
  {
    if user.None? then false
    else if user.value.role == SUPER_ADMIN || user.value.role == ADMIN then true
    else if user.value.role == MANAGER then Routes.BUSINESS_BROKERS in user.value.businessUnits
    else false
  }

  /** The two copies of the rule agree for every user. */
  lemma ProspectsRulesAgree(user: Option<SessionUser>)
    ensures CanAccessProspects(user) == Routes.CanAccessProspects(user)
  {
  }

  datatype NavLink = DashboardLink | UsersLink | ProspectsLink | DealsLink | BusinessSettingsLink

  /** The path a link leads to. */
  function LinkPath(l: NavLink): string
  {
    match l
    case DashboardLink => "/admin-dashboard"
    case UsersLink => "/admin-dashboard/users"
    case ProspectsLink => "/admin-dashboard/prospects"
    case DealsLink => "/admin-dashboard/deals"
    case BusinessSettingsLink => "/admin-dashboard/business-setting"
  }

  /** The sidebar's list, top to bottom. */
  function NavLinks(user: Option<SessionUser>): (links: seq<NavLink>)
    ensures DashboardLink in links && DealsLink in links
    ensures UsersLink in links <==> user.Some? && user.value.role == SUPER_ADMIN
    ensures BusinessSettingsLink in links <==> user.Some? && user.value.role == SUPER_ADMIN
    ensures ProspectsLink in links <==> CanAccessProspects(user)
    ensures links[0] == DashboardLink
  {
    var superAdmin := user.Some? && user.value.role == SUPER_ADMIN;
    [DashboardLink]
    + (if superAdmin then [UsersLink] else [])
    + (if CanAccessProspects(user) then [ProspectsLink] else [])
    + [DealsLink]
    + (if superAdmin then [BusinessSettingsLink] else [])
  }

  /** For a signed-in user, a link is listed exactly when the page it leads
      to renders instead of redirecting. */
  lemma {:induction false} LinksMatchGuards(user: Option<SessionUser>, l: NavLink)
    requires user.Some?
    ensures l in NavLinks(user) <==> Routes.Visit(LinkPath(l), false, user) == Routes.Render
  {
    Routes.SuperAdminPages(user);
    Routes.ProspectsPages(user);
    Routes.DealPages(false, user);
    Routes.DashboardNeedsUser(user);
    ProspectsRulesAgree(user);
  }

  /** The avatar: the first letter of the name, upper-cased, or '?' when
      there is no name or it is empty. */
  function Avatar(user: Option<SessionUser>): (s: string)
    ensures |s| == 1
    ensures s == "?" <==> user.None? || user.value.name.None? || user.value.name.value == "" || user.value.name.value[0] == '?'
    ensures user.Some? && user.value.name.Some? && user.value.name.value != "" ==>
      s[0] == UpperChar(user.value.name.value[0])
  {
    if user.Some? && user.value.name.Some? && user.value.name.value != "" then
      [UpperChar(user.value.name.value[0])]
    else "?"
  }
}
