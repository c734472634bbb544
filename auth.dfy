/** The client session of frontend/src/context/AuthContext.js: the signed-in
    user kept by the provider, login and logout, and the permission
    predicates every page consults. Persisting the user in localStorage is
    left to the caller: the stored value enters through `Restore`. */
module AuthContext {
  import opened Common

  /** The user kept in the session (`userInfo`). */
  datatype SessionUser = SessionUser(
    id: nat,
    name: Option<string>,
    role: string,
    businessUnits: seq<string>,
    office: Option<string>)

  /** The login response as the page passes it to `login`; absent fields are
      `None`. */
  datatype LoginData = LoginData(
    id: nat,
    name: Option<string>,
    role: string,
    businessUnits: Option<seq<string>>,
    office: Option<string>)

  const SUPER_ADMIN: string := "super_admin"
  const ADMIN: string := "admin"
  const MANAGER: string := "manager"

  /** The role hierarchy the permission switch encodes: super_admin above
      admin above manager; every other role string has no rank. */
  function Rank(role: string): (k: nat)
    ensures k <= 3
    ensures k > 0 <==> role in [SUPER_ADMIN, ADMIN, MANAGER]
  {
    if role == SUPER_ADMIN then 3 else if role == ADMIN then 2 else if role == MANAGER then 1 else 0
  }

  /** `hasPermission(requiredRole)`. */
  function HasPermission(user: Option<SessionUser>, requiredRole: string): (b: bool)
    ensures user.None? ==> !b
    ensures Rank(requiredRole) == 0 ==> !b
    ensures b <==> user.Some? && Rank(requiredRole) > 0 && Rank(user.value.role) >= Rank(requiredRole)
  {
    if user.None? then false
    else if requiredRole == SUPER_ADMIN then user.value.role == SUPER_ADMIN
    else if requiredRole == ADMIN then user.value.role in [SUPER_ADMIN, ADMIN]
    else if requiredRole == MANAGER then user.value.role in [SUPER_ADMIN, ADMIN, MANAGER]
    else false
  }

  /** Permission is monotone along the hierarchy. */
  lemma PermissionMonotone(user: Option<SessionUser>)
    ensures HasPermission(user, SUPER_ADMIN) ==> HasPermission(user, ADMIN)
    ensures HasPermission(user, ADMIN) ==> HasPermission(user, MANAGER)
  {
  }

  /** A role outside the hierarchy, such as 'user', passes no check. */
  lemma UnrankedRoleHasNoPermission(user: Option<SessionUser>, requiredRole: string)
    requires user.Some? && Rank(user.value.role) == 0
    ensures !HasPermission(user, requiredRole)
  {
  }

  /** `canManageUsers()`. */
  function CanManageUsers(user: Option<SessionUser>): (b: bool)
    ensures b <==> user.Some? && user.value.role == SUPER_ADMIN
    ensures b <==> HasPermission(user, SUPER_ADMIN)
  {
    user.Some? && user.value.role == SUPER_ADMIN
  }

  /** `canAccessBusinessUnit(unit)`: admins reach every unit, everyone else
      only the units listed in the session. */
  function CanAccessBusinessUnit(user: Option<SessionUser>, unit: string): (b: bool)
    ensures user.None? ==> !b
    ensures user.Some? && user.value.role in [SUPER_ADMIN, ADMIN] ==> b
    ensures user.Some? && user.value.role !in [SUPER_ADMIN, ADMIN] ==> (b <==> unit in user.value.businessUnits)
  {
    if user.None? then false
    else if user.value.role == SUPER_ADMIN || user.value.role == ADMIN then true
    else unit in user.value.businessUnits
  }

  /** `canManageOffice(office)`: admins manage every office, everyone else
      exactly their own. */
  function CanManageOffice(user: Option<SessionUser>, office: string): (b: bool)
    ensures user.None? ==> !b
    ensures user.Some? && user.value.role in [SUPER_ADMIN, ADMIN] ==> b
    ensures user.Some? && user.value.role !in [SUPER_ADMIN, ADMIN] ==> (b <==> user.value.office == Some(office))
  {
    if user.None? then false
    else if user.value.role == SUPER_ADMIN || user.value.role == ADMIN then true
    else user.value.office == Some(office)
  }

  /** The provider's state. */
  class AuthState {
    var user: Option<SessionUser>
    var loading: bool

    /** The first render: no user yet, still loading. */
    constructor ()
      ensures user.None? && loading
    {
      user, loading := None, true;
    }

    /** The mount effect: the user left in storage, if any, is restored and
        loading ends. */
    method Restore(stored: Option<SessionUser>)
      modifies this
      ensures user == stored && !loading
    {
      user := stored;
      loading := false;
    }

    /** `login(userData)`: keeps exactly id, name, role, the unit list (empty
        when absent) and the office (none when absent or empty). */
    method Login(data: LoginData)
      modifies this
      ensures loading == old(loading)
      ensures user.Some?
      ensures user.value.id == data.id && user.value.name == data.name && user.value.role == data.role
      ensures user.value.businessUnits == GetOr(data.businessUnits, [])
      ensures user.value.office.None? <==> data.office.None? || data.office == Some("")
      ensures user.value.office.Some? ==> user.value.office == data.office
    {
      var office := if data.office == Some("") then None else data.office;
      user := Some(SessionUser(data.id, data.name, data.role, GetOr(data.businessUnits, []), office));
    }

    /** `logout()`. */
    method Logout()
      modifies this
      ensures user.None? && loading == old(loading)
    {
      user := None;
    }
  }
}
