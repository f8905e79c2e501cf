/** The route guard (src/auth/ProtectedRoute.tsx): an ordered chain of
    three checks over the session and the route's optional requirements. */
module RouteGuard {
  import opened Wrappers
  import opened Types
  import opened AuthStore

  /** What the guard renders. */
  datatype Decision =
    | RedirectToLogin(from: string)   // <Navigate to="/login" state={{ from: location }}>
    | RedirectToUnauthorized          // <Navigate to="/unauthorized">
    | RenderChildren

  /** `requiredRoles && !hasRole(requiredRoles)`: any array, even an empty
      one, is truthy, so a present list always triggers the check. */
  function RoleCheckFails(user: Option<AdminUser>, requiredRoles: Option<seq<UserRole>>): (fails: bool)
    ensures requiredRoles.None? ==> !fails
    ensures requiredRoles.Some? && (user.None? || requiredRoles.value == []) ==> fails
    ensures fails ==> requiredRoles.Some? && (user.None? || user.value.role !in requiredRoles.value)
  {
    requiredRoles.Some? && !UserHasRole(user, requiredRoles.value)
  }

  /** `requiredPermission && !hasPermission(requiredPermission)`: the
      empty string is falsy, so an empty permission skips the check. */
  function PermissionCheckFails(user: Option<AdminUser>, requiredPermission: Option<string>): (fails: bool)
    ensures requiredPermission.None? || requiredPermission == Some("") ==> !fails
    ensures user.Some? && user.value.role == ADMIN ==> !fails
    ensures user.None? && requiredPermission.Some? && requiredPermission.value != "" ==> fails
  {
    requiredPermission.Some? && requiredPermission.value != "" &&
    !UserHasPermission(user, requiredPermission.value)
  }

  /** ProtectedRoute, given the store's isAuthenticated and user, the
      route's props and the requested location. */
  function ProtectedRoute(
    isAuthenticated: bool,
    user: Option<AdminUser>,
    requiredRoles: Option<seq<UserRole>>,
    requiredPermission: Option<string>,
    location: string): (d: Decision)
    ensures !isAuthenticated ==> d == RedirectToLogin(location)
    ensures d == RenderChildren <==>
      isAuthenticated && !RoleCheckFails(user, requiredRoles) && !PermissionCheckFails(user, requiredPermission)
    ensures d == RedirectToUnauthorized <==>
      isAuthenticated && (RoleCheckFails(user, requiredRoles) || PermissionCheckFails(user, requiredPermission))
    ensures d.RedirectToLogin? <==> !isAuthenticated
    ensures d.RedirectToLogin? ==> d.from == location
  {
    if !isAuthenticated then RedirectToLogin(location)
    else if RoleCheckFails(user, requiredRoles) then RedirectToUnauthorized
    else if PermissionCheckFails(user, requiredPermission) then RedirectToUnauthorized
    else RenderChildren
  }

  /** Without a session the result is the login redirect, whatever the
      requirements are. */
  lemma NoSessionAlwaysLogin(user: Option<AdminUser>, roles: Option<seq<UserRole>>, permission: Option<string>, location: string)
    ensures ProtectedRoute(false, user, roles, permission, location) == RedirectToLogin(location)
  {
  }

  /** The role check comes first: a failing role check yields unauthorized
      whatever the permission requirement is. */
  lemma RoleCheckFirst(user: Option<AdminUser>, roles: seq<UserRole>, permission: Option<string>, location: string)
    requires !UserHasRole(user, roles)
    ensures ProtectedRoute(true, user, Some(roles), permission, location) == RedirectToUnauthorized
  {
  }

  /** Both requirements present: children render iff both checks pass. */
  lemma BothRequirementsAreConjoined(user: Option<AdminUser>, roles: seq<UserRole>, permission: string, location: string)
    requires permission != ""
    ensures ProtectedRoute(true, user, Some(roles), Some(permission), location) == RenderChildren
      <==> UserHasRole(user, roles) && UserHasPermission(user, permission)
  {
  }

  /** With neither requirement every authenticated user gets the children. */
  lemma NoRequirementsRenders(user: Option<AdminUser>, location: string)
    ensures ProtectedRoute(true, user, None, None, location) == RenderChildren
  {
  }

  /** A present but empty role list denies everyone; an empty permission
      string is the same as none. */
  lemma EmptyRequirements(user: Option<AdminUser>, roles: Option<seq<UserRole>>, permission: Option<string>, location: string)
    ensures ProtectedRoute(true, user, Some([]), permission, location) == RedirectToUnauthorized
    ensures ProtectedRoute(true, user, roles, Some(""), location) == ProtectedRoute(true, user, roles, None, location)
  {
  }

  /** The decision depends on the user only through their role. */
  lemma DependsOnlyOnRole(u1: AdminUser, u2: AdminUser, isAuthenticated: bool,
                          roles: Option<seq<UserRole>>, permission: Option<string>, location: string)
    requires u1.role == u2.role
    ensures ProtectedRoute(isAuthenticated, Some(u1), roles, permission, location)
         == ProtectedRoute(isAuthenticated, Some(u2), roles, permission, location)
  {
  }

  /** Sample decisions for the three roles. */
  lemma RoleScenarios(admin: AdminUser, support: AdminUser, finance: AdminUser, location: string)
    requires admin.role == ADMIN && support.role == SUPPORT && finance.role == FINANCE
    ensures ProtectedRoute(true, Some(support), Some([ADMIN]), None, location) == RedirectToUnauthorized
    ensures ProtectedRoute(true, Some(admin), None, Some("anything.random"), location) == RenderChildren
    ensures ProtectedRoute(true, Some(finance), None, Some("analytics.view"), location) == RenderChildren
    ensures ProtectedRoute(true, Some(finance), None, Some("users.manage"), location) == RedirectToUnauthorized
  {
    RoleTableSamples(support, finance);
  }
}
