/** The sidebar (src/components/AppSidebar.tsx): the fixed list of
    navigation entries, the permission filter over it and the rule that
    highlights the active entry. */
module AppSidebar {
  import opened Wrappers
  import opened Types
  import opened Seqs
  import opened Text
  import opened AuthStore
  import AppRoutes

  /** NavItem; the icon is left out. */
  datatype NavItem = NavItem(title: string, href: string, permission: Option<string>)

  const NavItems: seq<NavItem> := [
    NavItem("Dashboard", "/", None),
    NavItem("Users", "/users", Some("users.view")),
    NavItem("Partners", "/partners", Some("partners.view")),
    NavItem("Menu", "/menu", None),
    NavItem("Orders", "/orders", Some("orders.view")),
    NavItem("Delivery", "/delivery", None),
    NavItem("Finance", "/finance", Some("finance.view")),
    NavItem("Offers", "/offers", None),
    NavItem("Notifications", "/notifications", Some("notifications.view")),
    NavItem("CMS", "/cms", None),
    NavItem("Analytics", "/analytics", Some("analytics.view")),
    NavItem("Settings", "/settings", None),
    NavItem("Admin Users", "/admin-users", None)
  ]

  /** `!item.permission || hasPermission(item.permission)`: an absent or
      empty permission shows the entry unconditionally. */
  function Shown(item: NavItem, user: Option<AdminUser>): (shown: bool)
    ensures user.None? ==> (shown <==> item.permission.None? || item.permission.value == "")
    ensures user.Some? && user.value.role == ADMIN ==> shown
    ensures item.permission.None? ==> shown
  {
    item.permission.None? || item.permission.value == "" || UserHasPermission(user, item.permission.value)
  }

  /** The filter callback, for a given signed-in user. */
  function ShownTo(user: Option<AdminUser>): NavItem -> bool
  {
    item => Shown(item, user)
  }

  /** filteredNavItems */
  function FilteredNavItems(user: Option<AdminUser>): (items: seq<NavItem>)
    ensures |items| <= |NavItems|
    ensures forall item :: item in items <==> item in NavItems && Shown(item, user)
  {
    Filter(NavItems, ShownTo(user))
  }

  /** An entry without a permission is always listed; one with a permission
      is listed iff the user has it. */
  lemma FilteredNavItemsMembership(user: Option<AdminUser>, item: NavItem)
    ensures item in FilteredNavItems(user) <==>
      item in NavItems && (item.permission.None? || UserHasPermission(user, item.permission.value))
  {
    if item in NavItems {
      var k :| 0 <= k < |NavItems| && NavItems[k] == item;
      NoEmptyPermission(k);
    }
  }

  /** No entry carries an empty permission string. */
  lemma NoEmptyPermission(k: nat)
    requires k < |NavItems|
    ensures NavItems[k].permission != Some("")
  {
  }

  /** The visible list keeps the order of navItems. */
  lemma FilteredNavItemsIsSubsequence(user: Option<AdminUser>)
    ensures IsSubsequence(FilteredNavItems(user), NavItems)
  {
    FilterIsSubsequence(NavItems, ShownTo(user));
  }

  /** isActive: "/" only for the exact path; any other entry by a raw
      string-prefix test on the pathname. */
  function IsActive(href: string, pathname: string): (active: bool)
    ensures active ==> |href| <= |pathname| && pathname[..|href|] == href
    ensures href != "" ==> (href == pathname ==> active)
  {
    if href == "/" then pathname == "/" else StartsWith(pathname, href)
  }

  /** The Dashboard entry is active only on "/" itself; any other entry
      is active on every pathname it prefixes. */
  lemma IsActiveRule(href: string, pathname: string)
    ensures IsActive("/", pathname) <==> pathname == "/"
    ensures href != "/" ==> (IsActive(href, pathname) <==> |href| <= |pathname| && pathname[..|href|] == href)
  {
  }

  /** The prefix test is not a segment test: "/users-x" highlights the
      "/users" entry. */
  lemma IsActivePrefixSample(pathname: string)
    requires pathname == "/users-x"
    ensures IsActive("/users", pathname)
  {
    assert pathname[..6] == "/users";
  }

  /** ADMIN's wildcard shows any entry. */
  lemma AdminShown(admin: AdminUser, item: NavItem)
    requires admin.role == ADMIN
    ensures ShownTo(Some(admin))(item)
  {
    assert UserHasPermission(Some(admin), if item.permission.Some? then item.permission.value else "");
  }

  /** ADMIN sees all thirteen entries, in order. */
  lemma AdminSeesEverything(admin: AdminUser)
    requires admin.role == ADMIN
    ensures FilteredNavItems(Some(admin)) == NavItems
  {
    var shown := ShownTo(Some(admin));
    forall k | 0 <= k < |NavItems|
      ensures shown(NavItems[k])
    {
      AdminShown(admin, NavItems[k]);
    }
    FilterKeepsAll(NavItems, shown);
  }

  /** Entry `k` is listed exactly when the filter callback accepts it. */
  lemma ListedIffShown(user: Option<AdminUser>, k: nat)
    requires k < |NavItems|
    ensures NavItems[k] in FilteredNavItems(user) <==> Shown(NavItems[k], user)
  {
    assert ShownTo(user)(NavItems[k]) == Shown(NavItems[k], user);
  }

  /** Whether the callback accepts entry `k` with nobody signed in. */
  lemma NoUserShown(user: Option<AdminUser>, k: nat)
    requires user.None? && k < |NavItems|
    ensures Shown(NavItems[k], user) <==> NavItems[k].permission.None?
  {
  }

  /** With nobody signed in only the seven entries without a permission
      show: Dashboard, Menu, Delivery, Offers, CMS, Settings, Admin Users. */
  lemma NoUserSidebar(user: Option<AdminUser>)
    requires user.None?
    ensures forall k :: 0 <= k < |NavItems| ==> (NavItems[k] in FilteredNavItems(user) <==> NavItems[k].permission.None?)
  {
    forall k | 0 <= k < |NavItems|
      ensures NavItems[k] in FilteredNavItems(user) <==> NavItems[k].permission.None?
    {
      NoUserShown(user, k);
      ListedIffShown(user, k);
    }
  }

  /** Whether the callback accepts entry `k` for SUPPORT. */
  lemma SupportShown(support: AdminUser, k: nat)
    requires support.role == SUPPORT && k < |NavItems|
    ensures Shown(NavItems[k], Some(support)) <==> k != 6 && k != 10
  {
    if k == 6 || k == 10 {
      NonAdminPermissionIsMembership(support, NavItems[k].permission.value);
    }
  }

  /** SUPPORT sees every entry but Finance (6) and Analytics (10). */
  lemma SupportSidebar(support: AdminUser)
    requires support.role == SUPPORT
    ensures forall k :: 0 <= k < |NavItems| ==> (NavItems[k] in FilteredNavItems(Some(support)) <==> k != 6 && k != 10)
  {
    forall k | 0 <= k < |NavItems|
      ensures NavItems[k] in FilteredNavItems(Some(support)) <==> k != 6 && k != 10
    {
      SupportShown(support, k);
      ListedIffShown(Some(support), k);
    }
  }

  /** Whether the callback accepts entry `k` for FINANCE. */
  lemma FinanceShown(finance: AdminUser, k: nat)
    requires finance.role == FINANCE && k < |NavItems|
    ensures Shown(NavItems[k], Some(finance)) <==> k != 1 && k != 8
  {
    if k == 1 || k == 8 {
      NonAdminPermissionIsMembership(finance, NavItems[k].permission.value);
    }
  }

  /** FINANCE sees every entry but Users (1) and Notifications (8). */
  lemma FinanceSidebar(finance: AdminUser)
    requires finance.role == FINANCE
    ensures forall k :: 0 <= k < |NavItems| ==> (NavItems[k] in FilteredNavItems(Some(finance)) <==> k != 1 && k != 8)
  {
    forall k | 0 <= k < |NavItems|
      ensures NavItems[k] in FilteredNavItems(Some(finance)) <==> k != 1 && k != 8
    {
      FinanceShown(finance, k);
      ListedIffShown(Some(finance), k);
    }
  }

  /** Which entries are shown with nobody signed in, to SUPPORT and to
      FINANCE, in navItems order. */
  const NoUserMask: seq<bool> := [true, false, false, true, false, true, false, true, false, true, false, true, true]
  const SupportMask: seq<bool> := [true, true, true, true, true, true, false, true, true, true, false, true, true]
  const FinanceMask: seq<bool> := [true, false, true, true, true, true, true, true, false, true, true, true, true]

  lemma NoUserMaskMatches(user: Option<AdminUser>)
    requires user.None?
    ensures forall k :: 0 <= k < |NavItems| ==> ShownTo(user)(NavItems[k]) == NoUserMask[k]
  {
    forall k | 0 <= k < |NavItems|
      ensures ShownTo(user)(NavItems[k]) == NoUserMask[k]
    {
      NoUserShown(user, k);
    }
  }

  lemma SupportMaskMatches(support: AdminUser)
    requires support.role == SUPPORT
    ensures forall k :: 0 <= k < |NavItems| ==> ShownTo(Some(support))(NavItems[k]) == SupportMask[k]
  {
    forall k | 0 <= k < |NavItems|
      ensures ShownTo(Some(support))(NavItems[k]) == SupportMask[k]
    {
      SupportShown(support, k);
    }
  }

  lemma FinanceMaskMatches(finance: AdminUser)
    requires finance.role == FINANCE
    ensures forall k :: 0 <= k < |NavItems| ==> ShownTo(Some(finance))(NavItems[k]) == FinanceMask[k]
  {
    forall k | 0 <= k < |NavItems|
      ensures ShownTo(Some(finance))(NavItems[k]) == FinanceMask[k]
    {
      FinanceShown(finance, k);
    }
  }

  /** Seven entries show with nobody signed in. */
  lemma NoUserSidebarCount(user: Option<AdminUser>)
    requires user.None?
    ensures |FilteredNavItems(user)| == 7
  {
    NoUserMaskMatches(user);
    FilterLengthByMask(NavItems, ShownTo(user), NoUserMask);
  }

  /** SUPPORT sees eleven entries. */
  lemma SupportSidebarCount(support: AdminUser)
    requires support.role == SUPPORT
    ensures |FilteredNavItems(Some(support))| == 11
  {
    SupportMaskMatches(support);
    FilterLengthByMask(NavItems, ShownTo(Some(support)), SupportMask);
  }

  /** FINANCE sees eleven entries. */
  lemma FinanceSidebarCount(finance: AdminUser)
    requires finance.role == FINANCE
    ensures |FilteredNavItems(Some(finance))| == 11
  {
    FinanceMaskMatches(finance);
    FilterLengthByMask(NavItems, ShownTo(Some(finance)), FinanceMask);
  }

  /** Where entry `i`'s path sits in the route table's dashboard paths:
      the sidebar lists Menu before Orders, the route table the reverse. */
  function PathIndex(i: nat): nat
  {
    if i == 3 then 4 else if i == 4 then 3 else i
  }

  lemma HrefsByIndex()
    ensures |NavItems| == |AppRoutes.DashboardPaths|
    ensures forall i :: 0 <= i < |NavItems| ==> NavItems[i].href == AppRoutes.DashboardPaths[PathIndex(i)]
  {
  }

  /** Every sidebar link is a guarded dashboard route, and every guarded
      dashboard route has a sidebar link. */
  lemma SidebarHrefsAreDashboardPaths()
    ensures forall path :: path in AppRoutes.DashboardPaths <==> exists item :: item in NavItems && item.href == path
  {
    HrefsByIndex();
    forall path | path in AppRoutes.DashboardPaths
      ensures exists item :: item in NavItems && item.href == path
    {
      var j :| 0 <= j < |AppRoutes.DashboardPaths| && AppRoutes.DashboardPaths[j] == path;
      var i := PathIndex(j);
      assert 0 <= i < |NavItems| && PathIndex(i) == j;
      assert NavItems[i] in NavItems && NavItems[i].href == path;
    }
    forall item | item in NavItems
      ensures item.href in AppRoutes.DashboardPaths
    {
      var i :| 0 <= i < |NavItems| && NavItems[i] == item;
      assert item.href == AppRoutes.DashboardPaths[PathIndex(i)];
    }
  }
}
