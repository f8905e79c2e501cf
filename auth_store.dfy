/** The session store (src/store/authStore.ts): the role/permission
    table, the demo credential table, the role and permission checks, and
    the session state machine driven by login, logout and setLoading. */
module AuthStore {
  import opened Wrappers
  import opened Types
  import opened Text

  /** The permission token that grants every permission. */
  const Wildcard: string := "*"

  const SupportPermissions: seq<string> := [
    "dashboard.view",
    "users.view",
    "users.manage",
    "partners.view",
    "orders.view",
    "orders.manage",
    "notifications.view",
    "notifications.manage"
  ]

  const FinancePermissions: seq<string> := [
    "dashboard.view",
    "finance.view",
    "finance.manage",
    "partners.view",
    "orders.view",
    "analytics.view"
  ]

  /** rolePermissions */
  function RolePermissions(role: UserRole): (permissions: seq<string>)
    ensures Wildcard in permissions <==> role == ADMIN
    ensures role != ADMIN ==> "dashboard.view" in permissions && "partners.view" in permissions && "orders.view" in permissions
    ensures role == SUPPORT ==> "users.manage" in permissions && "finance.view" !in permissions
    ensures role == FINANCE ==> "finance.manage" in permissions && "users.view" !in permissions
  {
    match role
    case ADMIN => [Wildcard]
    case SUPPORT => SupportPermissions
    case FINANCE => FinancePermissions
  }

  /** hasRole over the signed-in user (None when nobody is signed in). */
  function UserHasRole(user: Option<AdminUser>, roles: seq<UserRole>): (b: bool)
    ensures user.None? ==> !b
    ensures roles == [] ==> !b
  {
    if user.None? then false else user.value.role in roles
  }

  /** hasPermission over the signed-in user. */
  function UserHasPermission(user: Option<AdminUser>, permission: string): (b: bool)
    ensures user.None? ==> !b
    ensures user.Some? && user.value.role == ADMIN ==> b
  {
    if user.None? then false
    else
      var permissions := RolePermissions(user.value.role);
      Wildcard in permissions || permission in permissions
  }

  /** Requiring the roles of two lists together admits whoever either list
      admits, and a one-role list admits exactly that role. */
  lemma HasRoleOfJoinedLists(user: Option<AdminUser>, roles1: seq<UserRole>, roles2: seq<UserRole>, role: UserRole)
    ensures UserHasRole(user, roles1 + roles2) <==> UserHasRole(user, roles1) || UserHasRole(user, roles2)
    ensures UserHasRole(user, [role]) <==> user.Some? && user.value.role == role
  {
  }

  /** For SUPPORT and FINANCE the check is exact, case-sensitive membership
      in the role's own list: neither list holds the wildcard. */
  lemma NonAdminPermissionIsMembership(user: AdminUser, permission: string)
    requires user.role != ADMIN
    ensures UserHasPermission(Some(user), permission) <==> permission in RolePermissions(user.role)
  {
    assert Wildcard !in SupportPermissions;
    assert Wildcard !in FinancePermissions;
  }

  /** SUPPORT lacks finance.view; FINANCE lacks users.manage but has
      analytics.view and finance.manage. */
  lemma RoleTableSamples(support: AdminUser, finance: AdminUser)
    requires support.role == SUPPORT && finance.role == FINANCE
    ensures !UserHasPermission(Some(support), "finance.view")
    ensures UserHasPermission(Some(support), "users.manage")
    ensures !UserHasPermission(Some(finance), "users.manage")
    ensures UserHasPermission(Some(finance), "analytics.view")
    ensures UserHasPermission(Some(finance), "finance.manage")
    ensures !UserHasPermission(Some(support), "Users.manage")
    ensures !UserHasPermission(Some(support), "users")
  {
    NonAdminPermissionIsMembership(support, "finance.view");
    NonAdminPermissionIsMembership(support, "Users.manage");
    NonAdminPermissionIsMembership(support, "users");
    NonAdminPermissionIsMembership(finance, "users.manage");
  }

  /** One entry of mockAdminUsers. */
  datatype Credential = Credential(password: string, user: AdminUser)

  /** The lastLogin the table entries carry before any login; the source
      takes it from the clock at load time, and login overwrites it. */
  const LoadTime: string := ""

  /** mockAdminUsers: keyed by lower-case e-mail address. */
  const MockAdminUsers: map<string, Credential> := map[
    "admin@treats24.com" := Credential("admin123",
      AdminUser("1", "sudev@treats24.com", "Sudev", ADMIN, None, LoadTime, "2024-01-01T00:00:00Z")),
    "support@treats24.com" := Credential("support123",
      AdminUser("2", "support@treats24.com", "Treat Support", SUPPORT, None, LoadTime, "2024-02-01T00:00:00Z")),
    "finance@treats24.com" := Credential("finance123",
      AdminUser("3", "finance@treats24.com", "Treat Finance", FINANCE, None, LoadTime, "2024-03-01T00:00:00Z"))
  ]

  /** The credential check of login: look the lower-cased e-mail up, then
      compare the password exactly. On success, the table's user with
      lastLogin set to `now`. */
  function Authenticate(email: string, password: string, now: string): (r: Option<AdminUser>)
    ensures r.Some? <==> ToLower(email) in MockAdminUsers && MockAdminUsers[ToLower(email)].password == password
    ensures r.Some? ==> r.value == MockAdminUsers[ToLower(email)].user.(lastLogin := now)
  {
    var key := ToLower(email);
    if key in MockAdminUsers && MockAdminUsers[key].password == password
    then Some(MockAdminUsers[key].user.(lastLogin := now))
    else None
  }

  /** Only the lower-cased e-mail matters: addresses that differ in letter
      case authenticate alike. */
  lemma AuthenticateIgnoresEmailCase(email1: string, email2: string, password: string, now: string)
    requires ToLower(email1) == ToLower(email2)
    ensures Authenticate(email1, password, now) == Authenticate(email2, password, now)
  {
  }

  /** The key admin@treats24.com with password admin123 yields the ADMIN
      user, whose own e-mail is sudev@treats24.com; a password differing
      only in case is refused. */
  lemma AuthenticateAdminKey(email: string, password: string, now: string)
    requires ToLower(email) == "admin@treats24.com"
    ensures Authenticate(email, password, now).Some? <==> password == "admin123"
    ensures password == "admin123" ==>
      Authenticate(email, password, now).value.email == "sudev@treats24.com" &&
      Authenticate(email, password, now).value.role == ADMIN
    ensures Authenticate(email, "Admin123", now).None?
  {
  }

  /** The user's own address sudev@treats24.com is not a login key. */
  lemma AuthenticateSudevAddressRefused(email: string, password: string, now: string)
    requires ToLower(email) == "sudev@treats24.com"
    ensures Authenticate(email, password, now).None?
  {
  }

  /** The store's fields. */
  datatype AuthState = AuthState(
    user: Option<AdminUser>,
    token: Option<string>,
    isAuthenticated: bool,
    isLoading: bool)

  const InitialState: AuthState := AuthState(None, None, false, false)

  /** isAuthenticated holds iff a user is stored iff a token is stored. */
  predicate SessionConsistent(s: AuthState)
  {
    (s.isAuthenticated <==> s.user.Some?) && (s.user.Some? <==> s.token.Some?)
  }

  /** First half of login: `set({ isLoading: true })` before the delay. */
  function LoginStarted(s: AuthState): (s': AuthState)
    ensures s'.isLoading
    ensures s'.(isLoading := s.isLoading) == s
  {
    s.(isLoading := true)
  }

  /** Second half of login, after the delay: the new state and the value
      login resolves to. `token` is the freshly generated token string. */
  function LoginFinished(s: AuthState, email: string, password: string, now: string, token: string): (r: (AuthState, bool))
    ensures !r.0.isLoading
    ensures r.1 <==> Authenticate(email, password, now).Some?
    ensures r.1 ==> r.0 == AuthState(Authenticate(email, password, now), Some(token), true, false)
    ensures !r.1 ==> r.0 == s.(isLoading := false)
  {
    match Authenticate(email, password, now)
    case Some(user) => (AuthState(Some(user), Some(token), true, false), true)
    case None => (s.(isLoading := false), false)
  }

  /** logout */
  function LoggedOut(s: AuthState): (s': AuthState)
    ensures s'.user.None? && s'.token.None? && !s'.isAuthenticated
    ensures s'.isLoading == s.isLoading
  {
    s.(user := None, token := None, isAuthenticated := false)
  }

  /** setLoading */
  function WithLoading(s: AuthState, loading: bool): (s': AuthState)
    ensures s'.isLoading == loading
    ensures s'.(isLoading := s.isLoading) == s
  {
    s.(isLoading := loading)
  }

  /** The session invariant holds initially and every transition keeps it. */
  lemma SessionInvariantPreserved(s: AuthState, email: string, password: string, now: string, token: string, loading: bool)
    requires SessionConsistent(s)
    ensures SessionConsistent(InitialState)
    ensures SessionConsistent(LoginStarted(s))
    ensures SessionConsistent(LoginFinished(LoginStarted(s), email, password, now, token).0)
    ensures SessionConsistent(LoggedOut(s))
    ensures SessionConsistent(WithLoading(s, loading))
  {
  }

  /** A failed login leaves an existing session untouched. */
  lemma FailedLoginKeepsSession(s: AuthState, email: string, password: string, now: string, token: string)
    requires Authenticate(email, password, now).None?
    ensures var s' := LoginFinished(LoginStarted(s), email, password, now, token).0;
      s'.user == s.user && s'.token == s.token && s'.isAuthenticated == s.isAuthenticated && !s'.isLoading
  {
  }

  /** After logout no role or permission check passes. */
  lemma LoggedOutDeniesEverything(s: AuthState, roles: seq<UserRole>, permission: string)
    ensures !UserHasRole(LoggedOut(s).user, roles)
    ensures !UserHasPermission(LoggedOut(s).user, permission)
  {
  }

  /** useAuthStore: the zustand store object. */
  class AuthStore {
    var user: Option<AdminUser>
    var token: Option<string>
    var isAuthenticated: bool
    var isLoading: bool

    function State(): AuthState
      reads this
    {
      AuthState(user, token, isAuthenticated, isLoading)
    }

    predicate Valid()
      reads this
    {
      SessionConsistent(State())
    }

    constructor ()
      ensures State() == InitialState
      ensures Valid()
    {
      user, token, isAuthenticated, isLoading := None, None, false, false;
    }

    /** login, with the one-second delay taken as a single step. */
    method Login(email: string, password: string, now: string, freshToken: string) returns (ok: bool)
      requires Valid()
      modifies this
      ensures Valid()
      ensures (State(), ok) == LoginFinished(LoginStarted(old(State())), email, password, now, freshToken)
    {
      isLoading := true;
      var key := ToLower(email);
      if key in MockAdminUsers && MockAdminUsers[key].password == password {
        user := Some(MockAdminUsers[key].user.(lastLogin := now));
        token := Some(freshToken);
        isAuthenticated := true;
        isLoading := false;
        ok := true;
      } else {
        isLoading := false;
        ok := false;
      }
    }

    method Logout()
      requires Valid()
      modifies this
      ensures Valid()
      ensures State() == LoggedOut(old(State()))
    {
      user, token, isAuthenticated := None, None, false;
    }

    method SetLoading(loading: bool)
      requires Valid()
      modifies this
      ensures Valid()
      ensures State() == WithLoading(old(State()), loading)
    {
      isLoading := loading;
    }

    /** hasRole: false for everyone once logged out. */
    function HasRole(roles: seq<UserRole>): (b: bool)
      reads this
      ensures Valid() && !isAuthenticated ==> !b
      ensures b ==> user.Some? && user.value.role in roles
    {
      UserHasRole(user, roles)
    }

    /** hasPermission: false once logged out, true for any permission
        while ADMIN is signed in. */
    function HasPermission(permission: string): (b: bool)
      reads this
      ensures Valid() && !isAuthenticated ==> !b
      ensures user.Some? && user.value.role == ADMIN ==> b
    {
      UserHasPermission(user, permission)
    }
  }
}
