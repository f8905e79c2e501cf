# Treats 24 admin dashboard — a Dafny model of its rules

Treats 24's admin dashboard is a React single-page application for a food-delivery platform. Staff in three roles use it: ADMIN, SUPPORT and FINANCE. This project models the parts of it that decide things:

- **The session store.** This is the role/permission table, the demo credential table, and `hasRole`/`hasPermission`. It also covers `login`, `logout` and `setLoading` as a state machine over `user`, `token`, `isAuthenticated` and `isLoading`.
- **Routing.** This is the route guard's three ordered checks and the route table, matched as exact strings with a catch-all.
- **The sidebar.** This is the permission filter over the thirteen navigation entries and the active-entry rule.
- **The layout store.** This is the `sidebarCollapsed` and `sidebarOpen` toggles.
- **The list pages.**
  - Users, partners, orders and menu items: their search and filter predicates, row truncation, row-menu actions per status, and detail drawers or dialogs.
  - The coupon list, whose `isActive` toggle replaces the list with a mapped copy.
  - The notification form and its send handler.
- **The order details drawer.** This is its six-step progress stepper, the discount and delivery-partner rows, and the "Update Status" button.

Each source file becomes one module:

| module | file |
|---|---|
| `AuthStore` | src/store/authStore.ts |
| `RouteGuard` | src/auth/ProtectedRoute.tsx |
| `AppRoutes` | src/App.tsx |
| `AppSidebar` | src/components/AppSidebar.tsx |
| `UiStore` | src/store/uiStore.ts |
| `OffersPage` | src/modules/offers/OffersPage.tsx |
| `UsersPage` | src/modules/users/UsersPage.tsx |
| `PartnersPage` | src/modules/partners/PartnersPage.tsx |
| `OrdersPage` | src/modules/orders/OrdersPage.tsx |
| `MenuPage` | src/modules/menu/MenuPage.tsx |
| `OrderDetailsDrawer` | src/modules/orders/OrderDetailsDrawer.tsx |
| `NotificationsPage` | src/modules/notifications/NotificationsPage.tsx |

Four more modules are shared:

- `Types`: the entities of src/types/index.ts.
- `Seqs`: `filter`, `slice(0, n)`, `indexOf` and `[...new Set(...)]` on sequences.
- `Text`: ASCII `toLowerCase`, `startsWith` and `includes`.
- `Wrappers`: `Option`.

State that the source keeps in stores or in React `useState` is modelled as a class:

- `AuthStore.AuthStore` and `UiStore.UIStore`.
- The coupon list of `OffersPage.OffersPage`.
- The filter and selection fields of the users, partners and orders pages.
- The form of `NotificationsPage.NotificationsPage`.

How the methods are specified depends on the class:

- The methods of `AuthStore.AuthStore` and `UiStore.UIStore` tie the new state to a pure transition function on a state datatype, and the lemmas are stated about those functions.
- `NotificationsPage.NotificationsPage.HandleSend` ties the new form to the function `NotificationsPage.Send` of the old one. The four field setters state the new form as the old one with that one field replaced.
- `OffersPage.OffersPage.HandleToggleActive` ties the new coupon list to the function `OffersPage.ToggleActive` of the old one.
- The methods of the users, partners and orders page classes state the new value of each field.
- `HandleCopyCode`, `HandleBlockUser` and `HandleToggleStatus` change no state; they return the message they report.

JavaScript semantics are written out:

- An empty string is falsy, so an empty required permission skips the check. An array is truthy even when empty, so an empty role list denies everyone.
- `indexOf` yields -1 when the value is absent.
- `startsWith` is a raw prefix test.
- Status filters are plain strings: `"all"` or a status's own lower-case name.

## Model

| member | source | states |
|---|---|---|
| AuthStore.UserHasRole | src/store/authStore.ts:123-127 | false when nobody is signed in and for an empty role list |
| AuthStore.HasRoleOfJoinedLists | src/store/authStore.ts:123-127 | hasRole over two lists joined admits whoever either list admits; a one-role list admits exactly that role |
| AuthStore.RolePermissions | src/store/authStore.ts:58-78 | only ADMIN holds the wildcard; SUPPORT and FINANCE both hold dashboard.view, partners.view and orders.view; SUPPORT has users.manage but not finance.view; FINANCE has finance.manage but not users.view |
| AuthStore.UserHasPermission | src/store/authStore.ts:129-135 | false when nobody is signed in; always true for ADMIN, whose entry is the wildcard |
| AuthStore.NonAdminPermissionIsMembership | src/store/authStore.ts:58-78 | for SUPPORT and FINANCE, hasPermission is exact case-sensitive membership in the role's list |
| AuthStore.RoleTableSamples | src/store/authStore.ts:60-77 | SUPPORT lacks finance.view but has users.manage; FINANCE lacks users.manage but has analytics.view and finance.manage; neither case variants nor prefixes match |
| AuthStore.Authenticate | src/store/authStore.ts:94-99 | succeeds iff the lower-cased e-mail is a table key whose password equals the given one exactly; the result is that table user with lastLogin replaced |
| AuthStore.AuthenticateIgnoresEmailCase | src/store/authStore.ts:94 | e-mails that lower-case alike authenticate alike |
| AuthStore.AuthenticateAdminKey | src/store/authStore.ts:18-96 | key admin@treats24.com succeeds iff the password is admin123, yielding the ADMIN user whose e-mail is sudev@treats24.com; "Admin123" is refused |
| AuthStore.AuthenticateSudevAddressRefused | src/store/authStore.ts:18-94 | the user's own address sudev@treats24.com is not a login key |
| AuthStore.LoginStarted | src/store/authStore.ts:89 | sets isLoading and changes nothing else |
| AuthStore.LoginFinished | src/store/authStore.ts:94-108 | success iff authentication succeeds; on success stores the user, a token and isAuthenticated; on failure only clears isLoading; never leaves isLoading set |
| AuthStore.LoggedOut | src/store/authStore.ts:111-117 | clears user, token and isAuthenticated and keeps isLoading |
| AuthStore.WithLoading | src/store/authStore.ts:119-121 | sets isLoading and changes nothing else |
| AuthStore.SessionInvariantPreserved | src/store/authStore.ts:83-121 | "authenticated iff a user iff a token" holds initially and after every transition |
| AuthStore.FailedLoginKeepsSession | src/store/authStore.ts:107 | a failed login keeps an existing user, token and isAuthenticated |
| AuthStore.LoggedOutDeniesEverything | src/store/authStore.ts:111-135 | after logout every role and permission check fails |
| AuthStore.AuthStore.constructor | src/store/authStore.ts:83-86 | starts with no user, no token, not authenticated, not loading |
| AuthStore.AuthStore.Login | src/store/authStore.ts:88-109 | the new state and result are LoginFinished after LoginStarted of the old state; keeps the session invariant |
| AuthStore.AuthStore.Logout | src/store/authStore.ts:111-117 | the new state is LoggedOut of the old state |
| AuthStore.AuthStore.SetLoading | src/store/authStore.ts:119-121 | the new state is WithLoading of the old state |
| AuthStore.AuthStore.HasRole | src/store/authStore.ts:123-127 | false once logged out; true only for a listed role |
| AuthStore.AuthStore.HasPermission | src/store/authStore.ts:129-135 | false once logged out; true for ADMIN |
| RouteGuard.ProtectedRoute | src/auth/ProtectedRoute.tsx:20-32 | the login redirect, carrying the location, iff there is no session; /unauthorized iff signed in and the role or the permission check fails; children iff signed in and neither fails |
| RouteGuard.RoleCheckFails | src/auth/ProtectedRoute.tsx:24 | never fails without a role list; a present list fails for nobody signed in and always when empty; a failure means the role is not listed |
| RouteGuard.PermissionCheckFails | src/auth/ProtectedRoute.tsx:28 | never fails for an absent or empty permission, nor for ADMIN; a non-empty permission fails for nobody signed in |
| RouteGuard.NoSessionAlwaysLogin | src/auth/ProtectedRoute.tsx:20-22 | without a session the result is the login redirect, whatever the requirements |
| RouteGuard.RoleCheckFirst | src/auth/ProtectedRoute.tsx:24-26 | a failing role check yields /unauthorized whatever the permission requirement |
| RouteGuard.BothRequirementsAreConjoined | src/auth/ProtectedRoute.tsx:24-32 | with both requirements, children render iff both checks pass |
| RouteGuard.NoRequirementsRenders | src/auth/ProtectedRoute.tsx:20-32 | with no requirements every signed-in user sees the children |
| RouteGuard.EmptyRequirements | src/auth/ProtectedRoute.tsx:24-30 | an empty role list denies everyone; an empty permission is the same as none |
| RouteGuard.DependsOnlyOnRole | src/auth/ProtectedRoute.tsx:17-30 | the decision depends on the user only through their role |
| RouteGuard.RoleScenarios | src/auth/ProtectedRoute.tsx:24-30 | SUPPORT is refused an ADMIN-only route; ADMIN passes any permission; FINANCE passes analytics.view and fails users.manage |
| AppRoutes.FindRoute | src/App.tsx:33-53 | the match found is a table entry with the path; none is found iff no entry has it |
| AppRoutes.Navigate | src/App.tsx:33-53 | an unlisted path shows NotFound; a login redirect happens only without a session and carries the path |
| AppRoutes.FindRouteFirst | src/App.tsx:33-53 | the first entry with a path is the one matched |
| AppRoutes.RouteTableShape | src/App.tsx:34-50 | fifteen entries: /login, /unauthorized, then the thirteen dashboard paths, all distinct |
| AppRoutes.PublicRoutes | src/App.tsx:34-35 | /login and /unauthorized show their pages with or without a session |
| AppRoutes.GuardedRoutesAreUnrestricted | src/App.tsx:38-50 | exactly the dashboard routes are guarded, and none passes roles or a permission |
| AppRoutes.DashboardPathsOpenToEverySession | src/App.tsx:38-50 | any signed-in user of any role reaches each dashboard page; without a session each redirects to /login |
| AppRoutes.UnlistedPathIsNotFound | src/App.tsx:52 | any other path shows NotFound |
| AppSidebar.Shown | src/components/AppSidebar.tsx:59-61 | an entry without a permission is always shown; ADMIN is shown every entry; nobody signed in is shown exactly the entries with no permission or an empty one |
| AppSidebar.FilteredNavItems | src/components/AppSidebar.tsx:59-61 | no longer than navItems; an entry is listed iff it is in navItems and the callback accepts it |
| AppSidebar.IsActive | src/components/AppSidebar.tsx:63-66 | an active entry's href prefixes the pathname; an entry is active on its own href |
| AppSidebar.FilteredNavItemsMembership | src/components/AppSidebar.tsx:59-61 | an entry is listed iff it has no permission or the user has it |
| AppSidebar.FilteredNavItemsIsSubsequence | src/components/AppSidebar.tsx:59-61 | the listed entries keep navItems order |
| AppSidebar.IsActiveRule | src/components/AppSidebar.tsx:63-66 | "/" is active only on "/"; any other entry is active iff its href prefixes the pathname |
| AppSidebar.IsActivePrefixSample | src/components/AppSidebar.tsx:65 | "/users-x" highlights the "/users" entry |
| AppSidebar.AdminShown | src/components/AppSidebar.tsx:59-61 | ADMIN is shown every entry |
| AppSidebar.AdminSeesEverything | src/components/AppSidebar.tsx:33-61 | ADMIN's sidebar is all thirteen entries in order |
| AppSidebar.ListedIffShown | src/components/AppSidebar.tsx:59-61 | entry k is listed iff the filter callback accepts it |
| AppSidebar.NoUserShown | src/components/AppSidebar.tsx:59-61 | with nobody signed in, an entry is accepted iff it has no permission |
| AppSidebar.NoUserSidebar | src/components/AppSidebar.tsx:33-61 | with nobody signed in, exactly the entries without a permission are listed |
| AppSidebar.SupportShown | src/components/AppSidebar.tsx:33-61 | SUPPORT is shown every entry but Finance and Analytics |
| AppSidebar.SupportSidebar | src/components/AppSidebar.tsx:33-61 | SUPPORT's sidebar lists every entry but Finance and Analytics |
| AppSidebar.FinanceShown | src/components/AppSidebar.tsx:33-61 | FINANCE is shown every entry but Users and Notifications |
| AppSidebar.FinanceSidebar | src/components/AppSidebar.tsx:33-61 | FINANCE's sidebar lists every entry but Users and Notifications |
| AppSidebar.NoUserMaskMatches | src/components/AppSidebar.tsx:33-61 | entry by entry, what is shown with nobody signed in |
| AppSidebar.SupportMaskMatches | src/components/AppSidebar.tsx:33-61 | entry by entry, what SUPPORT is shown |
| AppSidebar.FinanceMaskMatches | src/components/AppSidebar.tsx:33-61 | entry by entry, what FINANCE is shown |
| AppSidebar.NoUserSidebarCount | src/components/AppSidebar.tsx:59-61 | seven entries are listed with nobody signed in |
| AppSidebar.SupportSidebarCount | src/components/AppSidebar.tsx:59-61 | SUPPORT sees eleven entries |
| AppSidebar.FinanceSidebarCount | src/components/AppSidebar.tsx:59-61 | FINANCE sees eleven entries |
| AppSidebar.HrefsByIndex | src/components/AppSidebar.tsx:33-47 | the entries' hrefs are the dashboard route paths, with Menu and Orders in swapped order |
| AppSidebar.SidebarHrefsAreDashboardPaths | src/components/AppSidebar.tsx:33-47 | a path is a guarded dashboard route iff some sidebar entry links to it |
| UiStore.Toggled | src/store/uiStore.ts:15-17 | negates sidebarCollapsed and keeps sidebarOpen |
| UiStore.WithCollapsed | src/store/uiStore.ts:19-21 | sets sidebarCollapsed and keeps sidebarOpen |
| UiStore.WithOpen | src/store/uiStore.ts:23-25 | sets sidebarOpen and keeps sidebarCollapsed |
| UiStore.ToggleTwiceIsIdentity | src/store/uiStore.ts:15-17 | toggling twice restores the state, and toggling once always changes it |
| UiStore.SettersIdempotent | src/store/uiStore.ts:19-25 | each setter is idempotent, and setting the current value is a no-op |
| UiStore.SettersCommute | src/store/uiStore.ts:15-25 | the two setters commute; toggling is setting the negation |
| UiStore.UIStore.constructor | src/store/uiStore.ts:12-13 | starts expanded and open |
| UiStore.UIStore.ToggleSidebar | src/store/uiStore.ts:15-17 | the new state is Toggled of the old |
| UiStore.UIStore.SetSidebarCollapsed | src/store/uiStore.ts:19-21 | the new state is WithCollapsed of the old |
| UiStore.UIStore.SetSidebarOpen | src/store/uiStore.ts:23-25 | the new state is WithOpen of the old |
| OffersPage.Flipped | src/modules/offers/OffersPage.tsx:32 | negates isActive and changes no other field |
| OffersPage.ToggleActive | src/modules/offers/OffersPage.tsx:30-33 | same length; every coupon with the id is flipped, every other is unchanged, position by position |
| OffersPage.ToggleKeepsIds | src/modules/offers/OffersPage.tsx:30-33 | ids, and so row keys, never change |
| OffersPage.ToggleTwiceRestores | src/modules/offers/OffersPage.tsx:30-33 | toggling the same id twice restores the list |
| OffersPage.ToggleUnknownIdIsNoOp | src/modules/offers/OffersPage.tsx:30-33 | an id no coupon has leaves the list unchanged |
| OffersPage.TogglesCommute | src/modules/offers/OffersPage.tsx:30-33 | toggles of two ids commute |
| OffersPage.OffersPage.constructor | src/modules/offers/OffersPage.tsx:28 | the page starts with the two mock coupons |
| OffersPage.OffersPage.HandleToggleActive | src/modules/offers/OffersPage.tsx:30-35 | the coupon list becomes ToggleActive of the old list; reports "Coupon status updated" |
| OffersPage.OffersPage.HandleCopyCode | src/modules/offers/OffersPage.tsx:37-40 | copies the code and reports "Coupon code copied!"; the coupons are untouched |
| UsersPage.FilterUsers | src/modules/users/UsersPage.tsx:41-50 | a user is kept iff the search matches (name or e-mail lower-cased, phone as typed) and the status filter is "all" or the status |
| UsersPage.FilterUsersIsSubsequence | src/modules/users/UsersPage.tsx:41 | the matches keep the order of the user list |
| UsersPage.EmptySearchListsEveryone | src/modules/users/UsersPage.tsx:37-50 | an empty search under "all" lists every user |
| UsersPage.StatusFilterIsExact | src/modules/users/UsersPage.tsx:47 | a status filter keeps exactly the matching users of that status |
| UsersPage.UnknownStatusFilterListsNobody | src/modules/users/UsersPage.tsx:47 | a filter that is neither "all" nor a status name lists nobody |
| UsersPage.SearchIgnoresCaseExceptPhone | src/modules/users/UsersPage.tsx:42-45 | queries that lower-case alike find the same users unless the phone comparison separates them |
| UsersPage.PhoneSearchIsCaseSensitive | src/modules/users/UsersPage.tsx:45 | a phone "x" is found by "x" and not by "X" |
| UsersPage.RenderedUsers | src/modules/users/UsersPage.tsx:115 | the rows are the first min(10, matches) matches |
| UsersPage.BlockMenuLabel | src/modules/users/UsersPage.tsx:155-165 | "Unblock User" iff the user is blocked, "Block User" otherwise |
| UsersPage.BlockToast | src/modules/users/UsersPage.tsx:52-54 | the message ends with the user's name and starts "Unblocked" iff the user is blocked |
| UsersPage.UsersPage.constructor | src/modules/users/UsersPage.tsx:37-39 | empty search, "all", no selection; every user is listed |
| UsersPage.UsersPage.SetSearchQuery | src/modules/users/UsersPage.tsx:72 | sets the query only |
| UsersPage.UsersPage.SetStatusFilter | src/modules/users/UsersPage.tsx:76 | sets the status filter only |
| UsersPage.UsersPage.ViewDetails | src/modules/users/UsersPage.tsx:150 | selects the user and opens the drawer |
| UsersPage.UsersPage.CloseDetails | src/modules/users/UsersPage.tsx:178-182 | clears the selection and closes the drawer |
| UsersPage.UsersPage.HandleBlockUser | src/modules/users/UsersPage.tsx:52-54 | reports BlockToast and changes nothing |
| PartnersPage.FilterPartners | src/modules/partners/PartnersPage.tsx:44-53 | a partner is kept iff business name, owner name or e-mail contains the query case-insensitively and the status filter is "all" or the status |
| PartnersPage.FilterPartnersIsSubsequence | src/modules/partners/PartnersPage.tsx:44-53 | the matches keep the order of the partner list |
| PartnersPage.EmptySearchListsEveryPartner | src/modules/partners/PartnersPage.tsx:39-53 | an empty search under "all" lists every partner |
| PartnersPage.PartnerStatusFilterIsExact | src/modules/partners/PartnersPage.tsx:50 | a status filter keeps exactly the matching partners of that status |
| PartnersPage.PartnerSearchIgnoresCase | src/modules/partners/PartnersPage.tsx:45-48 | queries that lower-case alike find the same partners |
| PartnersPage.Actions | src/modules/partners/PartnersPage.tsx:184-208 | Approve and Reject iff pending, Disable iff approved, Enable iff disabled |
| PartnersPage.ActionsByStatus | src/modules/partners/PartnersPage.tsx:180-208 | only a rejected partner gets no extra action; Enable and Disable never appear together |
| PartnersPage.ToggleWord | src/modules/partners/PartnersPage.tsx:66 | "enabled" iff the partner is disabled, otherwise "disabled" |
| PartnersPage.ToggleStatusToast | src/modules/partners/PartnersPage.tsx:67 | the business name followed by " has been " and the word |
| PartnersPage.PartnersPage.constructor | src/modules/partners/PartnersPage.tsx:39-42 | empty search, "all", no dialog, mode approve; every partner is listed |
| PartnersPage.PartnersPage.SetSearchQuery | src/modules/partners/PartnersPage.tsx:89 | sets the query only |
| PartnersPage.PartnersPage.SetStatusFilter | src/modules/partners/PartnersPage.tsx:93 | sets the status filter only |
| PartnersPage.PartnersPage.HandleApprove | src/modules/partners/PartnersPage.tsx:55-58 | holds the partner in approve mode and opens the dialog |
| PartnersPage.PartnersPage.HandleReject | src/modules/partners/PartnersPage.tsx:60-63 | holds the partner in reject mode and opens the dialog |
| PartnersPage.PartnersPage.CloseModal | src/modules/partners/PartnersPage.tsx:220-225 | drops the partner, closing the dialog, and keeps the mode |
| PartnersPage.PartnersPage.HandleToggleStatus | src/modules/partners/PartnersPage.tsx:65-68 | reports ToggleStatusToast and changes nothing |
| OrdersPage.FilterOrders | src/modules/orders/OrdersPage.tsx:40-49 | an order is kept iff id, customer or partner name contains the query case-insensitively and the status filter is "all" or the status |
| OrdersPage.FilterOrdersIsSubsequence | src/modules/orders/OrdersPage.tsx:40 | the matches keep the order of the order list |
| OrdersPage.EmptySearchListsEveryOrder | src/modules/orders/OrdersPage.tsx:36-49 | an empty search under "all" lists every order |
| OrdersPage.OrderStatusFilterIsExact | src/modules/orders/OrdersPage.tsx:46 | a status filter keeps exactly the matching orders of that status |
| OrdersPage.RefundedOnlyUnderAll | src/modules/orders/OrdersPage.tsx:46-84 | every drop-down option but "All Status" hides a refunded order |
| OrdersPage.RenderedOrders | src/modules/orders/OrdersPage.tsx:116 | the rows are the first min(15, matches) matches |
| OrdersPage.OffersStatusActions | src/modules/orders/OrdersPage.tsx:147 | Update Status and Cancel Order are offered exactly for pending, confirmed, preparing, ready, picked-up and refunded orders |
| OrdersPage.OrdersPage.constructor | src/modules/orders/OrdersPage.tsx:36-38 | empty search, "all", no selection; every order is listed |
| OrdersPage.OrdersPage.SetSearchQuery | src/modules/orders/OrdersPage.tsx:67 | sets the query only |
| OrdersPage.OrdersPage.SetStatusFilter | src/modules/orders/OrdersPage.tsx:71 | sets the status filter only |
| OrdersPage.OrdersPage.ViewDetails | src/modules/orders/OrdersPage.tsx:143 | selects the order and opens the drawer |
| OrdersPage.OrdersPage.CloseDetails | src/modules/orders/OrdersPage.tsx:171-175 | clears the selection and closes the drawer |
| MenuPage.FilterItems | src/modules/menu/MenuPage.tsx:39-45 | an item is kept iff its name contains the query case-insensitively, its partner matches or the filter is "all", and likewise its category |
| MenuPage.FilterItemsIsSubsequence | src/modules/menu/MenuPage.tsx:39 | the matches keep the order of the item list |
| MenuPage.NoFilterListsEveryItem | src/modules/menu/MenuPage.tsx:35-45 | an empty search with both drop-downs on "all" lists every item |
| MenuPage.PartnerFilterIsExact | src/modules/menu/MenuPage.tsx:41 | a partner filter keeps exactly that partner's matching items |
| MenuPage.CategoryFilterIsExact | src/modules/menu/MenuPage.tsx:42 | a category filter keeps exactly the matching items of that category |
| MenuPage.CategoryColumn | src/modules/menu/MenuPage.tsx:47 | the category of every item, position by position |
| MenuPage.Categories | src/modules/menu/MenuPage.tsx:47 | no duplicates, and a value is listed iff some item has that category |
| MenuPage.CategoriesInFirstOccurrenceOrder | src/modules/menu/MenuPage.tsx:47 | the categories appear in order of first use, as a subsequence of the item categories |
| MenuPage.OfferedCategorySelectsAnItem | src/modules/menu/MenuPage.tsx:47-105 | every offered category selects at least one item when nothing else is filtered |
| MenuPage.RenderedItems | src/modules/menu/MenuPage.tsx:133 | the rows are the first min(15, matches) matches |
| MenuPage.AvailabilityToast | src/modules/menu/MenuPage.tsx:49-51 | "Item disabled" iff the item was available, "Item enabled" otherwise |
| MenuPage.StockToast | src/modules/menu/MenuPage.tsx:53-55 | "in stock" iff the item was out of stock, "out of stock" otherwise |
| MenuPage.InStockSwitchOn | src/modules/menu/MenuPage.tsx:159 | the "In Stock" switch is on iff the item is not out of stock |
| MenuPage.ToastsNameTheFlippedState | src/modules/menu/MenuPage.tsx:49-161 | each message names the state the switch is flipped to; the stock switch shows the negation of isOutOfStock |
| OrderDetailsDrawer.StepNumber | src/modules/orders/OrderDetailsDrawer.tsx:21-28 | a step between 0 and 5, and -1 exactly for cancelled and refunded |
| OrderDetailsDrawer.CurrentStepIndex | src/modules/orders/OrderDetailsDrawer.tsx:33 | the position of the status name in the step list, and -1 iff it is not there |
| OrderDetailsDrawer.StepNameAt | src/modules/orders/OrderDetailsDrawer.tsx:21-28 | step k is named after the k-th status |
| OrderDetailsDrawer.CurrentStepIndexIsStepNumber | src/modules/orders/OrderDetailsDrawer.tsx:21-33 | the indexOf lookup agrees with the step numbering for every status |
| OrderDetailsDrawer.ShowsStepper | src/modules/orders/OrderDetailsDrawer.tsx:34 | a hidden stepper means an off-stepper status; the only off-stepper status whose stepper shows is refunded |
| OrderDetailsDrawer.Dots | src/modules/orders/OrderDetailsDrawer.tsx:54-62 | six dots; dot i is filled iff i <= the index |
| OrderDetailsDrawer.Connectors | src/modules/orders/OrderDetailsDrawer.tsx:63-71 | five connectors; connector i is filled iff i < the index |
| OrderDetailsDrawer.ConnectorJoinsFilledDots | src/modules/orders/OrderDetailsDrawer.tsx:54-71 | a connector is filled iff both dots it joins are |
| OrderDetailsDrawer.CountTruePrefix | src/modules/orders/OrderDetailsDrawer.tsx:58 | a mask true on exactly its first k entries counts k |
| OrderDetailsDrawer.FilledCounts | src/modules/orders/OrderDetailsDrawer.tsx:54-71 | idx + 1 dots and max(idx, 0) connectors are filled |
| OrderDetailsDrawer.LaterStatusFillsMore | src/modules/orders/OrderDetailsDrawer.tsx:54-70 | a status further along fills every dot and connector an earlier one fills |
| OrderDetailsDrawer.StepperExtremes | src/modules/orders/OrderDetailsDrawer.tsx:33-62 | delivered fills every dot; refunded shows the stepper with none filled |
| OrderDetailsDrawer.ItemLines | src/modules/orders/OrderDetailsDrawer.tsx:128-138 | one line per item, each price times quantity |
| OrderDetailsDrawer.ShowsUpdateStatus | src/modules/orders/OrderDetailsDrawer.tsx:185 | the button shows only with the stepper and before its last step; an order at the last step has no button |
| OrderDetailsDrawer.UpdateStatusMatchesRowActions | src/modules/orders/OrderDetailsDrawer.tsx:185 | the Update Status button shows iff the order is neither cancelled nor delivered, exactly when the orders table offers its actions |
| OrderDetailsDrawer.Render | src/modules/orders/OrderDetailsDrawer.tsx:30-190 | nothing without an order; otherwise the stepper iff not cancelled, dots and connectors by step number, the delivery-partner row iff the name is non-empty, the item amounts are ItemLines (price times quantity per item), the discount row iff discount > 0, the button iff neither cancelled nor delivered |
| NotificationsPage.Send | src/modules/notifications/NotificationsPage.tsx:25-33 | sends iff title and message are both non-empty; a refused send keeps the form and reports the error; a sent one clears title and message |
| NotificationsPage.SendKeepsTypeAndAudience | src/modules/notifications/NotificationsPage.tsx:25-33 | sending never changes the type or the audience |
| NotificationsPage.SecondSendFails | src/modules/notifications/NotificationsPage.tsx:26-32 | of two sends in a row the second is refused and changes nothing |
| NotificationsPage.InitialFormIsRefused | src/modules/notifications/NotificationsPage.tsx:20-29 | the fresh form cannot be sent |
| NotificationsPage.NotificationsPage.constructor | src/modules/notifications/NotificationsPage.tsx:20-23 | empty title and message, type push, audience all_users |
| NotificationsPage.NotificationsPage.SetTitle | src/modules/notifications/NotificationsPage.tsx:130 | sets the title only |
| NotificationsPage.NotificationsPage.SetMessage | src/modules/notifications/NotificationsPage.tsx:139 | sets the message only |
| NotificationsPage.NotificationsPage.SetType | src/modules/notifications/NotificationsPage.tsx:85 | sets the type only |
| NotificationsPage.NotificationsPage.SetAudience | src/modules/notifications/NotificationsPage.tsx:103 | sets the audience only |
| NotificationsPage.NotificationsPage.HandleSend | src/modules/notifications/NotificationsPage.tsx:25-33 | the new form and the toast are those of Send on the old form |
| Seqs.Filter | src/modules/users/UsersPage.tsx:40-50 | `filter`: no longer than the list; every kept element passes; an element is kept iff it is in the list and passes |
| Seqs.FilterMultiplicity | src/modules/users/UsersPage.tsx:40-50 | `filter` keeps every passing element exactly as often as it occurs and drops every failing one |
| Seqs.Take | src/modules/users/UsersPage.tsx:115 | `slice(0, n)`: a prefix of at most n elements, the whole list when it is no longer, exactly n otherwise |
| Seqs.IndexOf | src/modules/orders/OrderDetailsDrawer.tsx:33 | `indexOf`: the first position holding the value, and -1 iff the value is absent |
| Seqs.Distinct | src/modules/menu/MenuPage.tsx:47 | `[...new Set(xs)]`: no duplicates, and a value is listed iff it occurs in the input |
| Text.ToLower | src/modules/users/UsersPage.tsx:42-44 | `toLowerCase`: same length, every character lower-cased |
| Text.Includes | src/modules/users/UsersPage.tsx:42-45 | `includes`: a found text is no longer than the text searched |
| Text.IncludesIffOccurs | src/modules/users/UsersPage.tsx:42-45 | the left-to-right scan finds the query iff it occurs at some position of the text |
| Text.StartsWith | src/components/AppSidebar.tsx:65 | `startsWith`: holds iff the text is the prefix followed by the rest of the text |
| Types.StatusNamesDistinct | src/types/index.ts:11-72 | the status names are injective, and none is "all" |

## Left out

- Persistence. The zustand `persist` middleware writes the session to localStorage; that is I/O.
- Token generation and the login delay. The token built from the clock and a random number is a parameter of `Login` and `LoginFinished`, and so is the new `lastLogin` time. The one-second delay is not modelled: `Login` is one step, specified as `LoginStarted` followed by `LoginFinished`.
- AuthStore.MockAdminUsers: the table users' `lastLogin` is taken from the clock when the module loads. The model uses a fixed placeholder, and login overwrites it anyway.
- Mock data. The user, partner, order and menu-item lists come from src/services/mockData.ts, partly from random numbers and dates, so the page classes take them as constructor parameters. The two coupons are constants.
- Floating point. Money amounts are `real` and are displayed only; the coupon usage percentage and the formatting helpers (`formatCurrency`, `formatDate`, `formatDateTime`) are not part of this model. src/utils/helpers is not part of this model.
- Toasts and the clipboard. These are foreign calls; the model returns their text as method results.
- Unicode case mapping. `toLowerCase` is modelled as ASCII lower-casing.
- react-router matching. Paths are matched as exact strings, and `Navigate` with `state.from` is reduced to the path it carries.
- Rendering-only parts. Icons, tooltips, layout, the sidebar's collapsed and mobile variants, badges, partner ratings and the static "Recent Notifications" list have no rules to state.
- UserDetailsDrawer and PartnerApprovalModal. These are not part of this model; the pages' open and close state is.
- AppSidebar.SupportSidebar and AppSidebar.FinanceSidebar state per-entry membership and the count, not the exact filtered list as one sequence. The order of the list comes from AppSidebar.FilteredNavItemsIsSubsequence.
- Menu switches. The availability and stock switches only report a message; no item changes, so the model has no state for them.
- Order actions. "Update Status" and "Cancel Order" have no handlers in the source, so only whether they are offered is modelled.
