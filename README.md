# Inventory management system: a verified model of its rules

The system is a small inventory application for three roles: admin, manager and staff. It has a
React front end and an Express API over PostgreSQL. This project models its rules in Dafny and
proves what they guarantee:

- **Access control.** The role → permission table; the route guard; the `/dashboard` page, which shows each role its own dashboard;
  the route table; and the two sidebars whose entries depend on the role.
- **Stock.** The API's stock adjustment, which writes the product and its movement record together.
  The manager's movement workflow, which adds pending records and stamps decisions on them, never
  touching stock. The direct adjustment of the inventory page. The two different rules the pages
  use for "out of stock".
- **The pages' lists and forms.** Purchase orders, tasks (on the staff and the manager side),
  settings and suppliers. Approve, reject, status and value updates change one field of the
  entries with one id; task creation appends one task; saving settings sets the saving flag and
  the message; the supplier page fills its form from a supplier and reloads its list after a save.
- **Table rules of the API.** Supplier create, update and delete with its guard; the user
  active flag; the settings update loop, which runs outside a transaction.

Files and modules:

| file | module | models |
|---|---|---|
| common.dfy | `Common`, `Lists`, `Text` | `Option`; list filtering, `find` and `new Set` order; ASCII case-insensitive search |
| permissions.dfy | `Permissions`, `PermissionFacts` | `common/permissions.ts` |
| protected_route.dfy | `ProtectedRoute` | `routes/ProtectedRoute.tsx` |
| dashboard.dfy | `DashboardPage` | `pages/Dashboard.tsx` |
| app_routes.dfy | `AppRoutes` | `App.tsx` |
| menus.dfy | `Menus` | the `toggleMenu` and the `user?.role \|\| 'staff'` both sidebars share |
| layout_sidebar.dfy | `LayoutSidebar` | `components/layout/Sidebar.tsx` |
| common_sidebar.dfy | `CommonSidebar` | `common/sidebar.tsx` |
| schema.dfy | `Schema` | the tables the API routes read and write, the low-stock tests |
| staff_routes.dfy | `StaffRoutes` | `backend/src/routes/staffRoutes.js` |
| manager_routes.dfy | `ManagerRoutes` | `backend/src/routes/managerRoutes.js` |
| admin_routes.dfy | `AdminRoutes` | `backend/src/routes/adminRoutes.js` |
| catalog.dfy | `Catalog` | the product, stock bands and category list the three product pages share |
| inventory_management.dfy | `InventoryManagement` | `InventoryManagement.tsx` |
| inventory_viewer.dfy | `InventoryViewer` | `InventoryViewer.tsx` |
| product_management.dfy | `ProductManagement` | `ProductManagement.tsx` |
| stock_movements.dfy | `StockMovements` | `StockMovements.tsx` |
| purchase_orders.dfy | `PurchaseOrders` | `PurchaseOrders.tsx` |
| task_management.dfy | `TaskManagement` | `TaskManagement.tsx` |
| staff_oversight.dfy | `StaffOversight` | `StaffOversight.tsx` |
| system_settings.dfy | `SystemSettings` | `SystemSettings.tsx` |
| suppliers_management.dfy | `SuppliersManagement` | `SuppliersManagement.tsx` |

How the model is built:

- **Pure code** (permission table, guards, route table, filters, classifiers) becomes functions, with lemmas about them.
- **State that a page or handler updates** becomes a class:
  - the pages' `useState` lists are `seq` fields;
  - the database tables are `map<int, Row>` fields of `Schema.Database`.
  Handlers are methods whose `ensures` state the whole new state.
- **What the code cannot see** becomes a parameter. This covers the outcome of a `fetch`, what
  `prompt` returned, the current time, and which SQL query fails (`Schema.Fault`).

Behaviour the code shows, modelled as written:

- The staff sidebar links to `/staff/profile`, but no route is declared for that path: the visit
  shows nothing (`LayoutSidebar.StaffLinksOpenButProfile`).
- The supplier listing's `product_count` counts only active products, but the delete guard counts
  all of them. So a supplier listed with 0 products can still be refused deletion
  (`ManagerRoutes.ListedZeroYetReferenced`).
- The inventory viewer's stat cards count a product with stock 0 and a negative minimum twice
  (`InventoryViewer.StatCardsOvercount`).
- The viewer calls a negative stock "low". The other two product pages call it "out"
  (`Catalog.ClassifiersDifferOnlyBelowZero`).
- In the permission-gated sidebar, staff see the Users entry, because the table grants staff
  `users.read`. The code comment there says "Admin only".
- `editingId ? PUT : POST` sends a POST when the supplier being edited has id 0.
- `PUT /tasks/:id` writes nothing. The task page still updates its own list when the response is OK.
- New movement and task ids are `length + 1`. They may collide with ids already in the list, so the
  model never assumes they are unique.
- Approve and reject handlers do not check the current status. Only the rendering hides the
  buttons for records that are no longer pending.

## Model

| member | source | states |
|---|---|---|
| Permissions.ParseRole | iventory-system/src/common/permissions.ts:75 | a stored role name denotes a role exactly when it is that role's name |
| Permissions.ParseRoleName | iventory-system/src/common/permissions.ts:75 | every role's name parses back to that role |
| Permissions.RoleName | iventory-system/src/common/permissions.ts:75 | the `UserRole` string of each role (no contract of its own; `ParseRoleName` inverts it) |
| Permissions.RolePermissions | iventory-system/src/common/permissions.ts:78-143 | `ROLE_PERMISSIONS`, each row in the table's order (no contract of its own; the `PermissionFacts` lemmas state what it grants) |
| Permissions.HasPermission | iventory-system/src/common/permissions.ts:147-149 | `hasPermission`: the permission is in the role's row (no contract of its own) |
| Permissions.GetRolePermissions | iventory-system/src/common/permissions.ts:162-164 | the role's row, which holds the role's own dashboard permission |
| PermissionFacts.RoleRowDashboards | iventory-system/src/common/permissions.ts:78-143 | the only dashboard permission in a role's row is the role's own |
| Permissions.HasAnyPermission | iventory-system/src/common/permissions.ts:152-154 | true iff some listed permission is held |
| Permissions.HasAllPermissions | iventory-system/src/common/permissions.ts:157-159 | true iff every listed permission is held |
| Permissions.AnyAllOnLists | iventory-system/src/common/permissions.ts:152-159 | an empty list: "any" false, "all" true; on a non-empty list "all" implies "any" |
| Permissions.DashboardPermission | iventory-system/src/common/permissions.ts:91-142 | each role's dashboard permission is a `dashboard.*` permission |
| Permissions.Description | iventory-system/src/common/permissions.ts:167-227 | every permission has a non-empty description (the map is total) |
| PermissionFacts.RoleHierarchy | iventory-system/src/common/permissions.ts:79-143 | outside the dashboard entries, staff ⊆ manager ⊆ admin |
| PermissionFacts.StaffWithinManager | iventory-system/src/common/permissions.ts:119-143 | every staff permission but the staff dashboard is a manager permission |
| PermissionFacts.ManagerWithinAdmin | iventory-system/src/common/permissions.ts:94-118 | every manager permission but the manager dashboard is an admin permission |
| PermissionFacts.OwnDashboardOnly | iventory-system/src/common/permissions.ts:91-142 | a role holds a dashboard permission iff it is its own |
| PermissionFacts.AdminLacksManagerDashboard | iventory-system/src/common/permissions.ts:79-92 | admin does not hold `dashboard.manager` |
| PermissionFacts.AdminLacksStaffDashboard | iventory-system/src/common/permissions.ts:79-92 | admin does not hold `dashboard.staff` |
| PermissionFacts.ManagerLacksAdminDashboard | iventory-system/src/common/permissions.ts:94-118 | manager does not hold `dashboard.admin` |
| PermissionFacts.ManagerLacksStaffDashboard | iventory-system/src/common/permissions.ts:94-118 | manager does not hold `dashboard.staff` |
| PermissionFacts.StaffLacksOtherDashboards | iventory-system/src/common/permissions.ts:120-143 | staff hold neither the admin nor the manager dashboard |
| PermissionFacts.AdminHoldsAllButOtherDashboards | iventory-system/src/common/permissions.ts:79-92 | admin holds a permission iff it is not another role's dashboard |
| PermissionFacts.AdminHoldsTheRest | iventory-system/src/common/permissions.ts:79-92 | admin holds every permission that is not another role's dashboard |
| PermissionFacts.StockPermissions | iventory-system/src/common/permissions.ts:87-137 | all roles record in/out and view movements; adjust and transfer iff not staff |
| PermissionFacts.ManagerStock | iventory-system/src/common/permissions.ts:110 | manager holds all five `stock.*` permissions |
| PermissionFacts.StaffStock | iventory-system/src/common/permissions.ts:137 | staff hold in, out and view but not adjust or transfer |
| PermissionFacts.StaffLacksStockChanges | iventory-system/src/common/permissions.ts:137 | staff hold neither `stock.adjust` nor `stock.transfer` |
| PermissionFacts.AdminOnlyPermissions | iventory-system/src/common/permissions.ts:81-143 | `users.create`, `users.delete`, `settings.update`, `audit.*` are held iff the role is admin |
| PermissionFacts.ManagerLacksAdminOnly | iventory-system/src/common/permissions.ts:94-118 | manager holds none of the admin-only permissions |
| PermissionFacts.StaffLacksAdminOnly | iventory-system/src/common/permissions.ts:120-143 | staff hold none of the admin-only permissions |
| ProtectedRoute.RoleNames | iventory-system/src/routes/ProtectedRoute.tsx:33 | the names compared against `user.role`, one per allowed role |
| ProtectedRoute.RoleNamesMembership | iventory-system/src/routes/ProtectedRoute.tsx:33 | a stored name is among the allowed names iff it parses to an allowed role |
| ProtectedRoute.HomeFor | iventory-system/src/routes/ProtectedRoute.tsx:35-44 | a known role goes to `/<role>-dashboard`, any other name to `/login` |
| ProtectedRoute.Guard | iventory-system/src/routes/ProtectedRoute.tsx:14-47 | loading wins; no session → `/login`; children iff no roles listed, no user, or an allowed role; a refusal goes to `HomeFor` |
| ProtectedRoute.SignedIn | iventory-system/src/routes/ProtectedRoute.tsx:14-33 | the settled, authenticated session of a user of the role |
| ProtectedRoute.GuardForRole | iventory-system/src/routes/ProtectedRoute.tsx:33-47 | a known role passes iff allowed; otherwise it is sent to its own dashboard |
| ProtectedRoute.UnknownRoleSentToLogin | iventory-system/src/routes/ProtectedRoute.tsx:33-44 | a role name that is none of the three is sent to `/login` by every role-listing guard |
| DashboardPage.DashboardFor | iventory-system/src/pages/Dashboard.tsx:12-40 | loading iff loading; a dashboard is shown in place iff the session is settled with a user of a known role, and it is the component of that role's own dashboard route; every other case redirects to `/login` |
| DashboardPage.DashboardAgreesWithGuard | iventory-system/src/pages/Dashboard.tsx:32-40 | a user a guard refuses is sent to a page showing the same component `/dashboard` shows that user, and the role holds that dashboard's permission |
| DashboardPage.DashboardsDiffer | iventory-system/src/pages/Dashboard.tsx:32-38 | different roles see different dashboard components at `/dashboard` |
| AppRoutes.AdminGroup | iventory-system/src/App.tsx:85-132 | every `/admin/*` route admits admin alone |
| AppRoutes.ManagerGroup | iventory-system/src/App.tsx:135-182 | every `/manager/*` route admits manager and admin |
| AppRoutes.StaffGroup | iventory-system/src/App.tsx:185-200 | every `/staff/*` route admits all three roles |
| AppRoutes.Visit | iventory-system/src/App.tsx:39-201 | an unrouted path shows nothing; an open route shows its element; a guarded one shows it iff the guard lets through |
| AppRoutes.OwnDashboardRoute | iventory-system/src/App.tsx:47-72 | the dashboard a role is sent to is routed and guarded for that role alone |
| AppRoutes.RefusedUserLandsOnOwnDashboard | iventory-system/src/App.tsx:47-72 | a refused user is sent to a page that user can open: no redirect loop |
| AppRoutes.RoleDashboardsAdmitOwnRoleOnly | iventory-system/src/App.tsx:47-72 | a role dashboard shows for a role iff it is that dashboard's role |
| AppRoutes.AdminPagesForAdminOnly | iventory-system/src/App.tsx:85-132 | an admin page shows iff the signed-in role is admin |
| AppRoutes.ManagerPagesClosedToStaff | iventory-system/src/App.tsx:135-182 | a manager page shows iff the role is not staff |
| AppRoutes.StaffPagesOpenToEveryRole | iventory-system/src/App.tsx:185-200 | a staff page shows for every role |
| AppRoutes.DashboardRouteOpenToSignedIn | iventory-system/src/App.tsx:75-82 | `/dashboard` shows its page to every settled, authenticated session |
| AppRoutes.GuestsSentToLogin | iventory-system/src/App.tsx:41-44 | without a session every guarded route sends to `/login`, which is open |
| Menus.EffectiveRole | iventory-system/src/components/layout/Sidebar.tsx:61 | a missing or empty role reads as `staff` |
| Menus.Toggled | iventory-system/src/components/layout/Sidebar.tsx:43-49 | the toggled id's membership flips; every other id keeps its membership |
| Menus.ToggleTwiceRestoresCollapsed | iventory-system/src/components/layout/Sidebar.tsx:43-49 | toggling a collapsed id twice restores the list exactly |
| Menus.ToggleTwiceMovesExpandedLast | iventory-system/src/common/sidebar.tsx:15-21 | toggling an expanded id twice moves it to the end |
| Menus.ToggledNoDuplicates | iventory-system/src/common/sidebar.tsx:15-21 | toggling never makes an id appear twice |
| LayoutSidebar.MenuItems | iventory-system/src/components/layout/Sidebar.tsx:60-186 | Dashboard → `/dashboard` first; the admin or manager menu by role; the staff menu for any other role |
| LayoutSidebar.AdminMenuShape | iventory-system/src/components/layout/Sidebar.tsx:72-113 | the admin menu's ids, and Inventory's children products and categories |
| LayoutSidebar.ManagerMenuShape | iventory-system/src/components/layout/Sidebar.tsx:115-162 | the manager menu's ids, and Inventory's two children |
| LayoutSidebar.AdminLinks | iventory-system/src/components/layout/Sidebar.tsx:72-113 | the admin menu links to the dashboard and five admin pages (not create-user) |
| LayoutSidebar.AdminLinksOpen | iventory-system/src/components/layout/Sidebar.tsx:72-113 | every admin menu link opens for an admin |
| LayoutSidebar.ManagerLinks | iventory-system/src/components/layout/Sidebar.tsx:115-162 | the manager menu links to the dashboard and all six manager pages |
| LayoutSidebar.ManagerLinksOpen | iventory-system/src/components/layout/Sidebar.tsx:115-162 | every manager menu link opens for a manager |
| LayoutSidebar.StaffLinks | iventory-system/src/components/layout/Sidebar.tsx:164-185 | the staff menu links to the dashboard, tasks, inventory and profile |
| LayoutSidebar.StaffLinksOpenButProfile | iventory-system/src/components/layout/Sidebar.tsx:182 | staff links open for staff, except `/staff/profile`, which has no route and shows nothing |
| LayoutSidebar.ClickActionFor | iventory-system/src/components/layout/Sidebar.tsx:197-203 | an entry with children toggles; a leaf navigates iff its path is non-empty |
| LayoutSidebar.EveryEntryActs | iventory-system/src/components/layout/Sidebar.tsx:60-203 | every top-level entry of every menu does something on a click |
| LayoutSidebar.SidebarState.constructor | iventory-system/src/components/layout/Sidebar.tsx:41 | the inventory menu starts expanded |
| LayoutSidebar.SidebarState.ToggleMenu | iventory-system/src/components/layout/Sidebar.tsx:43-49 | the expanded list becomes `Toggled` of the old one |
| LayoutSidebar.SidebarState.Click | iventory-system/src/components/layout/Sidebar.tsx:51-57 | a toggle changes only the expanded list; navigation returns the path and changes nothing |
| CommonSidebar.EntryListed | iventory-system/src/common/sidebar.tsx:35-101 | every entry has its place in the layout |
| CommonSidebar.Gate | iventory-system/src/common/sidebar.tsx:53-100 | only Dashboard and Products are ungated; the others are gated on one permission each |
| CommonSidebar.Entries | iventory-system/src/common/sidebar.tsx:35-101 | rendering fails iff the role name is unknown; the entries keep the layout's order |
| CommonSidebar.ShownIffPermitted | iventory-system/src/common/sidebar.tsx:53-100 | an entry is shown iff it is ungated or its permission is held |
| CommonSidebar.UngatedEntriesAlwaysShown | iventory-system/src/common/sidebar.tsx:37-50 | Dashboard and Products are always shown |
| CommonSidebar.MissingRoleIsStaff | iventory-system/src/common/sidebar.tsx:53-93 | no role, or an empty one, gives the staff entries |
| CommonSidebar.AdminAndManagerSeeEverything | iventory-system/src/common/sidebar.tsx:53-100 | admin and manager see all seven entries |
| CommonSidebar.ManagerHoldsGates | iventory-system/src/common/permissions.ts:94-118 | manager holds all five gate permissions |
| CommonSidebar.StaffSeeAllButSettings | iventory-system/src/common/sidebar.tsx:83-93 | staff see every entry but Settings, Users included |
| CommonSidebar.StaffGates | iventory-system/src/common/permissions.ts:120-143 | staff hold every gate permission except `settings.read` |
| CommonSidebar.SidebarState.constructor | iventory-system/src/common/sidebar.tsx:13 | the dashboard menu starts expanded |
| CommonSidebar.SidebarState.ToggleMenu | iventory-system/src/common/sidebar.tsx:15-21 | the expanded list becomes `Toggled` of the old one |
| Schema.LowStockIds | backend/src/routes/adminRoutes.js:72-77 | the rows the low-stock count counts: active with stock ≤ minimum |
| Schema.OutOfStockIds | backend/src/routes/managerRoutes.js:17 | the rows the out-of-stock count counts: active with stock = 0 |
| Schema.OutOfStockIsLowStock | backend/src/routes/managerRoutes.js:13-17 | with non-negative minimums, out-of-stock rows are low-stock rows and never outnumber them |
| Schema.Database.constructor | backend/src/routes/managerRoutes.js:245-269 | the tables start as given, with the supplier id sequence ahead of every id |
| StaffRoutes.TargetStock | backend/src/routes/staffRoutes.js:125-131 | `adjustment` targets the quantity itself; any other type lowers stock by the quantity's magnitude |
| StaffRoutes.Creator | backend/src/routes/staffRoutes.js:115 | `created_by` defaults to 1 |
| StaffRoutes.LastNewStock | backend/src/routes/staffRoutes.js:148-154 | the last recorded `new_stock` of a product, none iff it has no movement |
| StaffRoutes.LastNewStockAppend | backend/src/routes/staffRoutes.js:148-154 | a new movement becomes its product's last one and hides no other |
| StaffRoutes.AdjustmentKeepsLedger | backend/src/routes/staffRoutes.js:139-161 | an accepted adjustment keeps every product at its last movement's `new_stock` |
| StaffRoutes.StockAdjustment | backend/src/routes/staffRoutes.js:108-166 | 404 unknown, 400 negative target, 500 on a failed query with nothing written; on 200 one row updated and one movement appended; ledger agreement kept |
| StaffRoutes.UpdateTask | backend/src/routes/staffRoutes.js:210-216 | always answers success and changes nothing |
| ManagerRoutes.ReferencingProducts | backend/src/routes/managerRoutes.js:315 | the products the delete guard counts: every product with that supplier |
| ManagerRoutes.ListedProducts | backend/src/routes/managerRoutes.js:232 | the products the listing counts: active products with that supplier |
| ManagerRoutes.ListedAmongReferencing | backend/src/routes/managerRoutes.js:232-315 | the listed products are among the referencing ones; they differ by the inactive products |
| ManagerRoutes.ListedZeroYetReferenced | backend/src/routes/managerRoutes.js:232-315 | a supplier listed with 0 products can still be refused deletion |
| ManagerRoutes.NewSupplierRow | backend/src/routes/managerRoutes.js:247-256 | the body's fields, `is_active` defaulting to true and `created_by` to 1 |
| ManagerRoutes.UpdatedSupplierRow | backend/src/routes/managerRoutes.js:274-292 | the six fields overwritten (missing → NULL), `updated_at` refreshed, `created_by` kept |
| ManagerRoutes.CreateSupplier | backend/src/routes/managerRoutes.js:245-269 | 201 with a fresh id and the new row, or 500 with nothing written |
| ManagerRoutes.UpdateSupplier | backend/src/routes/managerRoutes.js:272-307 | 404 for an unknown id, else only that row replaced; 500 on failure |
| ManagerRoutes.DeleteSupplier | backend/src/routes/managerRoutes.js:310-332 | 400 iff some product references it; 404 iff no row; on 200 only that supplier removed |
| AdminRoutes.ToggleUser | backend/src/routes/adminRoutes.js:22-41 | 404 for an unknown id; else only that user's `is_active` set to the body's value |
| AdminRoutes.ApplySetting | backend/src/routes/adminRoutes.js:161-166 | one update: a row with the id takes the value, an id with no row changes nothing |
| AdminRoutes.ApplySettings | backend/src/routes/adminRoutes.js:160-167 | updates in list order never add or remove a setting, nor change a key |
| AdminRoutes.UnlistedSettingUnchanged | backend/src/routes/adminRoutes.js:160-167 | a setting no update names keeps its row |
| AdminRoutes.LastUpdateWins | backend/src/routes/adminRoutes.js:160-167 | of several updates to one setting, the last decides its value |
| AdminRoutes.UpdateSettings | backend/src/routes/adminRoutes.js:156-174 | all updates applied and 200, or 500 with exactly the updates before the failing one applied |
| Catalog.BandOutAtOrBelowZero | iventory-system/src/components/manager/InventoryManagement.tsx:160-168 | out iff stock ≤ 0; low iff 0 < stock ≤ minimum; in stock otherwise |
| Catalog.BandOutAtZero | iventory-system/src/components/staff/InventoryViewer.tsx:90-98 | out iff stock = 0; low iff stock ≠ 0 and ≤ minimum; normal otherwise |
| Catalog.ClassifiersDifferOnlyBelowZero | iventory-system/src/components/admin/ProductManagement.tsx:128-136 | the two rules agree on non-negative stock; on negative stock only the first says out |
| Catalog.EmptySearchAllCategoryMatches | iventory-system/src/components/manager/InventoryManagement.tsx:145-148 | empty search and category `all` let every product through |
| Catalog.CategoryNames | iventory-system/src/components/manager/InventoryManagement.tsx:170 | `filter(Boolean)`: exactly the present, non-empty category names, any two in the order of products naming them |
| Catalog.DistinctCategories | iventory-system/src/components/staff/InventoryViewer.tsx:68 | each present, non-empty category name exactly once |
| Catalog.DistinctCategoriesInFirstAppearanceOrder | iventory-system/src/components/staff/InventoryViewer.tsx:68 | categories appear in the order products first name them |
| Catalog.CategoryOptions | iventory-system/src/components/admin/ProductManagement.tsx:138 | `all` first, then exactly the distinct categories in first-appearance order |
| InventoryManagement.FilteredProducts | iventory-system/src/components/manager/InventoryManagement.tsx:145-158 | an order-preserving selection of exactly the products passing search, category and stock |
| InventoryManagement.NoFilterKeepsAll | iventory-system/src/components/manager/InventoryManagement.tsx:145-158 | no search, category `all` and a stock filter other than low/out keep the whole list |
| InventoryManagement.OutShownAsLow | iventory-system/src/components/manager/InventoryManagement.tsx:150-155 | with a non-negative minimum, an out-of-stock product also passes `low` |
| InventoryManagement.ProposedStock | iventory-system/src/components/manager/InventoryManagement.tsx:188-190 | `add` adds the quantity, any other type subtracts it |
| InventoryManagement.RemoveUndoesAdd | iventory-system/src/components/manager/InventoryManagement.tsx:188-194 | removing what was added restores a non-negative stock |
| InventoryManagement.WithStock | iventory-system/src/components/manager/InventoryManagement.tsx:193-197 | the same length; products with the id take the stock, the others are unchanged |
| InventoryManagement.InventoryManagementPage.constructor | iventory-system/src/components/manager/InventoryManagement.tsx:38-54 | no selection, the form at 0 / add / empty, dialog closed |
| InventoryManagement.InventoryManagementPage.OpenStockAdjustment | iventory-system/src/components/manager/InventoryManagement.tsx:172-179 | selects the product, resets the form to 0 / add / empty, opens the dialog |
| InventoryManagement.InventoryManagementPage.HandleStockAdjustment | iventory-system/src/components/manager/InventoryManagement.tsx:182-204 | nothing without a selection; else the products with its id take max(0, proposed), the dialog closes |
| InventoryViewer.FilteredProducts | iventory-system/src/components/staff/InventoryViewer.tsx:71-88 | an order-preserving selection of exactly the products passing text, category and stock |
| InventoryViewer.LowAndNormalPartition | iventory-system/src/components/staff/InventoryViewer.tsx:79-84 | `low` and `normal` split every view between them |
| InventoryViewer.OutKeepsZeroStock | iventory-system/src/components/staff/InventoryViewer.tsx:78-85 | `out` keeps exactly the products with stock 0 |
| InventoryViewer.ClearedFilters | iventory-system/src/components/staff/InventoryViewer.tsx:322-326 | empty search and both filters on `all` |
| InventoryViewer.ClearedFiltersShowAll | iventory-system/src/components/staff/InventoryViewer.tsx:322-326 | after Clear Filters every product is shown, in order |
| InventoryViewer.StatCardsAddUp | iventory-system/src/components/staff/InventoryViewer.tsx:175-207 | with no negative stock or minimum, the three cards sum to the total |
| InventoryViewer.StatCardsOvercount | iventory-system/src/components/staff/InventoryViewer.tsx:185-207 | a zero stock with a negative minimum is counted on two cards |
| InventoryViewer.BandMatchesCards | iventory-system/src/components/staff/InventoryViewer.tsx:90-98 | for non-negative values, each product's band is the card that counts it |
| ProductManagement.FilteredProducts | iventory-system/src/components/admin/ProductManagement.tsx:121-126 | an order-preserving selection of exactly the products passing search and category |
| ProductManagement.EmptySearchShowsAll | iventory-system/src/components/admin/ProductManagement.tsx:121-126 | an empty search with `all` shows the whole list |
| ProductManagement.CategoryIsExactMatch | iventory-system/src/components/admin/ProductManagement.tsx:124 | a named category keeps exactly the products with that `category_name` |
| ProductManagement.CategoryNarrows | iventory-system/src/components/admin/ProductManagement.tsx:121-126 | choosing a category never shows more products |
| StockMovements.NamesAreDistinct | iventory-system/src/components/manager/StockMovements.tsx:25-33 | no two types, and no two statuses, share a name |
| StockMovements.EmptyForm | iventory-system/src/components/manager/StockMovements.tsx:63-71 | product 0, type adjustment, quantity 0, empty texts |
| StockMovements.FindProduct | iventory-system/src/components/manager/StockMovements.tsx:264 | none iff no product has the id; else the first product with it |
| StockMovements.ProposedQuantity | iventory-system/src/components/manager/StockMovements.tsx:267-277 | `in` and `adjustment` add the quantity, `out` and `transfer` subtract it |
| StockMovements.Stamped | iventory-system/src/components/manager/StockMovements.tsx:221-230 | the same length; records with the id take the status and stamp, the others unchanged |
| StockMovements.LaterDecisionWins | iventory-system/src/components/manager/StockMovements.tsx:219-249 | a second decision on an id fully replaces the first |
| StockMovements.DecisionHidesButtons | iventory-system/src/components/manager/StockMovements.tsx:557-737 | after a decision the buttons are gone for that id and unchanged for the others |
| StockMovements.FilteredMovements | iventory-system/src/components/manager/StockMovements.tsx:181-188 | an order-preserving selection of exactly the records passing search, type and status |
| StockMovements.StatusFilterIsExact | iventory-system/src/components/manager/StockMovements.tsx:186 | a status name keeps exactly the records in that status |
| StockMovements.NoFilterListsAll | iventory-system/src/components/manager/StockMovements.tsx:181-188 | no search and both filters on `all` list every record |
| StockMovements.StockMovementsPage.constructor | iventory-system/src/components/manager/StockMovements.tsx:49-71 | the lists as given, the empty form, dialog closed |
| StockMovements.StockMovementsPage.ApproveMovement | iventory-system/src/components/manager/StockMovements.tsx:219-234 | the records with the id are stamped approved; products untouched |
| StockMovements.StockMovementsPage.RejectMovement | iventory-system/src/components/manager/StockMovements.tsx:236-254 | only a non-empty reason stamps rejected; the reason is not kept; products untouched |
| StockMovements.StockMovementsPage.HandleSubmit | iventory-system/src/components/manager/StockMovements.tsx:261-311 | unknown product: nothing; else one pending record in front with the listed fields; products untouched |
| PurchaseOrders.StatusNamesDistinct | iventory-system/src/components/manager/PurchaseOrders.tsx:23 | no two order statuses share a name |
| PurchaseOrders.WithStatus | iventory-system/src/components/manager/PurchaseOrders.tsx:176-180 | the same length; orders with the id take the status, the others unchanged |
| PurchaseOrders.DecisionNeverCompletes | iventory-system/src/components/manager/PurchaseOrders.tsx:174-195 | approve and reject never make an order completed |
| PurchaseOrders.DecisionHidesButtons | iventory-system/src/components/manager/PurchaseOrders.tsx:308-451 | after a decision the buttons are gone for that id and unchanged for the others |
| PurchaseOrders.FilteredOrders | iventory-system/src/components/manager/PurchaseOrders.tsx:157-162 | an order-preserving selection of exactly the orders passing search and status |
| PurchaseOrders.StatusFilterIsExact | iventory-system/src/components/manager/PurchaseOrders.tsx:160 | a status name keeps exactly the orders in that status |
| PurchaseOrders.NoFilterListsAll | iventory-system/src/components/manager/PurchaseOrders.tsx:157-162 | no search and `all` list every order |
| PurchaseOrders.PurchaseOrdersPage.constructor | iventory-system/src/components/manager/PurchaseOrders.tsx:49 | the page holds the given orders |
| PurchaseOrders.PurchaseOrdersPage.ApproveOrder | iventory-system/src/components/manager/PurchaseOrders.tsx:174-182 | the orders with the id become approved, whatever their status |
| PurchaseOrders.PurchaseOrdersPage.RejectOrder | iventory-system/src/components/manager/PurchaseOrders.tsx:184-195 | only a non-empty reason rejects; the reason is not kept |
| TaskManagement.WithStatus | iventory-system/src/components/staff/TaskManagement.tsx:68-72 | the same length; tasks with the id take the status, the others unchanged |
| TaskManagement.OfferedTransition | iventory-system/src/components/staff/TaskManagement.tsx:299-317 | pending → in_progress, in_progress → completed, nothing else |
| TaskManagement.Stage | iventory-system/src/components/staff/TaskManagement.tsx:299-317 | the workflow position: pending 0, in_progress 1, completed 2 |
| TaskManagement.TransitionsMoveForward | iventory-system/src/components/staff/TaskManagement.tsx:299-317 | each offered move goes one stage forward; completed is final; two presses complete a pending task |
| TaskManagement.FilteredTasks | iventory-system/src/components/staff/TaskManagement.tsx:83-87 | an order-preserving selection of exactly the tasks passing status and priority |
| TaskManagement.NoFilterListsAll | iventory-system/src/components/staff/TaskManagement.tsx:83-87 | both filters on `all` list every task |
| TaskManagement.StatusCountsAddUp | iventory-system/src/components/staff/TaskManagement.tsx:154-186 | if every status is one of the three, the three cards sum to the total |
| TaskManagement.TaskManagementPage.constructor | iventory-system/src/components/staff/TaskManagement.tsx:28-30 | the given tasks and no error |
| TaskManagement.TaskManagementPage.UpdateTaskStatus | iventory-system/src/components/staff/TaskManagement.tsx:58-81 | OK: only the id's tasks change status; otherwise the list stays and the error names the failure |
| TaskManagement.TaskManagementPage.PressTaskButton | iventory-system/src/components/staff/TaskManagement.tsx:299-317 | a button press asks for the offered next status for that task |
| StaffOversight.EmptyTaskForm | iventory-system/src/components/manager/StaffOversight.tsx:249-255 | empty title and description, nobody assigned, medium priority |
| StaffOversight.PerformanceColorOf | iventory-system/src/components/manager/StaffOversight.tsx:224-228 | green iff ≥ 90, yellow iff 75–89, red iff < 75 |
| StaffOversight.PerformanceColorMonotone | iventory-system/src/components/manager/StaffOversight.tsx:224-228 | a higher score never gets a worse colour |
| StaffOversight.AssignableStaff | iventory-system/src/components/manager/StaffOversight.tsx:402 | exactly the active staff, in order |
| StaffOversight.FilteredStaff | iventory-system/src/components/manager/StaffOversight.tsx:187-193 | an order-preserving selection of exactly the staff passing search and status |
| StaffOversight.FilteredTasks | iventory-system/src/components/manager/StaffOversight.tsx:195-200 | an order-preserving selection of exactly the tasks passing search and status |
| StaffOversight.StatusNamesDisjoint | iventory-system/src/components/manager/StaffOversight.tsx:23-37 | no staff status is spelled like a task status |
| StaffOversight.FilterNamesBelongToOneTab | iventory-system/src/components/manager/StaffOversight.tsx:187-200 | a staff status hides every task; a task status hides every staff member |
| StaffOversight.StatusChoices | iventory-system/src/components/manager/StaffOversight.tsx:655-665 | no selector for a completed task; otherwise pending, in progress and completed, never overdue |
| StaffOversight.WithStatus | iventory-system/src/components/manager/StaffOversight.tsx:261-265 | the same length; tasks with the id take the status, the others unchanged |
| StaffOversight.AssigneeName | iventory-system/src/components/manager/StaffOversight.tsx:238-244 | the name of the first member with the id, or empty when none has it |
| StaffOversight.StaffOversightPage.constructor | iventory-system/src/components/manager/StaffOversight.tsx:44-62 | the given lists, the empty form, dialog closed |
| StaffOversight.StaffOversightPage.CreateNewTask | iventory-system/src/components/manager/StaffOversight.tsx:235-259 | one pending task appended with id `length + 1` and the assignee's name; form reset |
| StaffOversight.StaffOversightPage.UpdateTaskStatus | iventory-system/src/components/manager/StaffOversight.tsx:261-266 | only the id's tasks change status |
| SystemSettings.WithValue | iventory-system/src/components/admin/SystemSettings.tsx:92-96 | the same length; settings with the id take the value, the others unchanged |
| SystemSettings.LaterEditWins | iventory-system/src/components/admin/SystemSettings.tsx:92-96 | editing twice keeps only the second value |
| SystemSettings.InputFor | iventory-system/src/components/admin/SystemSettings.tsx:121-163 | read-only iff not editable; select iff boolean, number input iff number, else text |
| SystemSettings.Group | iventory-system/src/components/admin/SystemSettings.tsx:217-286 | an order-preserving selection of exactly the settings with a listed key |
| SystemSettings.GroupsAreDisjoint | iventory-system/src/components/admin/SystemSettings.tsx:217-286 | no key is in two cards' lists |
| SystemSettings.DisplayedIffListedKey | iventory-system/src/components/admin/SystemSettings.tsx:217-286 | a setting is displayed iff its key is one of the six |
| SystemSettings.Spaced | iventory-system/src/components/admin/SystemSettings.tsx:221 | every `_` becomes a space, nothing else changes |
| SystemSettings.CapitalizeWords | iventory-system/src/components/admin/SystemSettings.tsx:221 | a word character at a word start is upper-cased, every other character kept |
| SystemSettings.Label | iventory-system/src/components/admin/SystemSettings.tsx:221-290 | a label is as long as its key |
| SystemSettings.LabelShape | iventory-system/src/components/admin/SystemSettings.tsx:221-290 | no `_` left; underscores became spaces; word-initial letters upper case; the rest kept |
| SystemSettings.TaxRateLabel | iventory-system/src/components/admin/SystemSettings.tsx:254 | `tax_rate` is labelled `Tax Rate` |
| SystemSettings.MessagesStyledAsMeant | iventory-system/src/components/admin/SystemSettings.tsx:110-195 | the failure message is error-styled, the success message is not |
| SystemSettings.SystemSettingsPage.constructor | iventory-system/src/components/admin/SystemSettings.tsx:15-18 | the given settings, not saving, no message |
| SystemSettings.SystemSettingsPage.UpdateSetting | iventory-system/src/components/admin/SystemSettings.tsx:92-96 | only the id's settings take the value |
| SystemSettings.SystemSettingsPage.SaveSettings | iventory-system/src/components/admin/SystemSettings.tsx:98-119 | `saving` false on every path; success or failure message, styled accordingly |
| SuppliersManagement.EmptySupplierForm | iventory-system/src/components/manager/SuppliersManagement.tsx:137-147 | empty texts and active |
| SuppliersManagement.OrEmpty | iventory-system/src/components/manager/SuppliersManagement.tsx:104-115 | a missing text becomes the empty text |
| SuppliersManagement.FilteredSuppliers | iventory-system/src/components/manager/SuppliersManagement.tsx:160-168 | an order-preserving selection of exactly the suppliers passing search and status |
| SuppliersManagement.StatusFilterIsExact | iventory-system/src/components/manager/SuppliersManagement.tsx:165-167 | `active` iff active, `inactive` iff not, `all` always |
| SuppliersManagement.ActiveAndInactivePartition | iventory-system/src/components/manager/SuppliersManagement.tsx:165-167 | the active and inactive lists together are the `all` list |
| SuppliersManagement.DeleteDisabled | iventory-system/src/components/manager/SuppliersManagement.tsx:317 | disabled iff `product_count` is present and positive |
| SuppliersManagement.SubmitRequestFor | iventory-system/src/components/manager/SuppliersManagement.tsx:80-81 | PUT to the id iff editing a non-zero id, else POST |
| SuppliersManagement.SuppliersManagementPage.constructor | iventory-system/src/components/manager/SuppliersManagement.tsx:31-51 | empty form, nobody edited, dialog closed, no error |
| SuppliersManagement.SuppliersManagementPage.HandleEdit | iventory-system/src/components/manager/SuppliersManagement.tsx:104-115 | the form copies the supplier, missing texts empty; its id is remembered |
| SuppliersManagement.SuppliersManagementPage.ResetForm | iventory-system/src/components/manager/SuppliersManagement.tsx:137-147 | defaults restored and no supplier being edited |
| SuppliersManagement.SuppliersManagementPage.LoadSuppliers | iventory-system/src/components/manager/SuppliersManagement.tsx:57-75 | the banner cleared; OK replaces the list with the body's suppliers (empty when absent); a failure names itself and keeps the list |
| SuppliersManagement.SuppliersManagementPage.HandleSubmit | iventory-system/src/components/manager/SuppliersManagement.tsx:77-102 | the PUT/POST choice; OK reloads the list (the banner then shows only the reload's outcome), resets and closes; otherwise the error names the failure |
| SuppliersManagement.EditThenSubmitUpdates | iventory-system/src/components/manager/SuppliersManagement.tsx:80-115 | editing then submitting PUTs that supplier, unless its id is 0 |
| Lists.Filter | iventory-system/src/components/staff/InventoryViewer.tsx:71-88 | `Array.filter`: an order-preserving selection of exactly the passing elements |
| Lists.Find | iventory-system/src/components/manager/StockMovements.tsx:264 | `Array.find`: none iff no element passes, else the first that does |
| Lists.Distinct | iventory-system/src/components/manager/InventoryManagement.tsx:170 | `new Set` spread: the same elements, each once |
| Lists.DistinctKeepsFirstOccurrenceOrder | iventory-system/src/components/manager/InventoryManagement.tsx:170 | `new Set` keeps the order of first occurrence |
| Lists.CountPartition3 | iventory-system/src/components/staff/TaskManagement.tsx:164-186 | `filter(...).length` counts under three mutually exclusive tests add up to the length |
| Text.Lower | iventory-system/src/components/manager/InventoryManagement.tsx:146-147 | `toLowerCase` on ASCII: same length, `A`–`Z` lowered, every other character kept |
| Text.EmptyTermMatches | iventory-system/src/components/manager/InventoryManagement.tsx:146-147 | `includes("")` holds for every field: the empty search matches everything |
| AppRoutes.RouteFor | iventory-system/src/App.tsx:39-201 | the route table: access and element of each of the 20 declared paths, none for any other (no contract of its own; the group lemmas and `Visit` state its properties) |
| LayoutSidebar.AdminMenu | iventory-system/src/components/layout/Sidebar.tsx:72-113 | the admin menu entries (no contract of its own; `AdminMenuShape` and `AdminLinks` state them) |
| LayoutSidebar.ManagerMenu | iventory-system/src/components/layout/Sidebar.tsx:115-162 | the manager menu entries (no contract of its own; `ManagerMenuShape` and `ManagerLinks` state them) |
| LayoutSidebar.StaffMenu | iventory-system/src/components/layout/Sidebar.tsx:164-185 | the staff menu entries (no contract of its own; `StaffLinks` states them) |
| CommonSidebar.AllEntries | iventory-system/src/common/sidebar.tsx:35-101 | the seven entries in layout order (no contract of its own; `EntryListed` states its completeness) |
| CommonSidebar.Passes | iventory-system/src/common/sidebar.tsx:53-100 | an entry renders iff ungated or its permission is held (no contract of its own; `ShownIffPermitted`) |
| Schema.IsLowStock | backend/src/routes/adminRoutes.js:72-77 | `stock_quantity <= min_stock_level AND is_active` (no contract of its own) |
| Schema.IsOutOfStock | backend/src/routes/managerRoutes.js:17 | `stock_quantity = 0 AND is_active` (no contract of its own) |
| Catalog.MatchesCategory | iventory-system/src/components/manager/InventoryManagement.tsx:148 | `'all'` or exactly the product's `category_name` (no contract of its own) |
| Catalog.MatchesNameOrSku | iventory-system/src/components/manager/InventoryManagement.tsx:146-147 | name or SKU contains the search term, case-insensitively (no contract of its own) |
| InventoryManagement.MatchesStock | iventory-system/src/components/manager/InventoryManagement.tsx:150-155 | `low`: stock ≤ minimum; `out`: stock = 0; anything else passes (no contract of its own) |
| InventoryViewer.MatchesText | iventory-system/src/components/staff/InventoryViewer.tsx:72-74 | name, SKU or present description contains the term (no contract of its own) |
| InventoryViewer.MatchesStock | iventory-system/src/components/staff/InventoryViewer.tsx:78-85 | `low`, `out`, `normal`, or anything else passes (no contract of its own) |
| InventoryViewer.InStockCard | iventory-system/src/components/staff/InventoryViewer.tsx:175-185 | the In Stock card's test (no contract of its own; `StatCardsAddUp`) |
| InventoryViewer.LowStockCard | iventory-system/src/components/staff/InventoryViewer.tsx:185-196 | the Low Stock card's test (no contract of its own; `StatCardsAddUp`) |
| InventoryViewer.OutOfStockCard | iventory-system/src/components/staff/InventoryViewer.tsx:196-207 | the Out of Stock card's test (no contract of its own; `StatCardsAddUp`) |
| StockMovements.Shown | iventory-system/src/components/manager/StockMovements.tsx:181-188 | the search, type and status tests of `filteredMovements` (no contract of its own) |
| StockMovements.ShowsDecisionButtons | iventory-system/src/components/manager/StockMovements.tsx:557 | the buttons render only for a pending record (no contract of its own) |
| PurchaseOrders.Shown | iventory-system/src/components/manager/PurchaseOrders.tsx:157-162 | the search and status tests of `filteredOrders` (no contract of its own) |
| PurchaseOrders.ShowsDecisionButtons | iventory-system/src/components/manager/PurchaseOrders.tsx:308 | the buttons render only for a pending order (no contract of its own) |
| TaskManagement.Shown | iventory-system/src/components/staff/TaskManagement.tsx:83-87 | the status and priority tests of `filteredTasks` (no contract of its own) |
| StaffOversight.StaffShown | iventory-system/src/components/manager/StaffOversight.tsx:187-193 | the search and status tests of `filteredStaff` (no contract of its own) |
| StaffOversight.TaskShown | iventory-system/src/components/manager/StaffOversight.tsx:195-200 | the search and status tests of `filteredTasks` (no contract of its own) |
| SuppliersManagement.MatchesText | iventory-system/src/components/manager/SuppliersManagement.tsx:161-163 | name, or a present contact person or e-mail, contains the term (no contract of its own) |
| SuppliersManagement.MatchesStatus | iventory-system/src/components/manager/SuppliersManagement.tsx:165-167 | `all`, `active` iff active, `inactive` iff not; any other value matches nothing (no contract of its own) |
| SystemSettings.Displayed | iventory-system/src/components/admin/SystemSettings.tsx:217-287 | shown on one of the three cards (no contract of its own; `DisplayedIffListedKey`) |
| SystemSettings.IsErrorStyled | iventory-system/src/components/admin/SystemSettings.tsx:194-195 | `message.includes('Error')` (no contract of its own; `MessagesStyledAsMeant`) |
| Text.MatchesSearch | iventory-system/src/components/manager/InventoryManagement.tsx:146-147 | `field.toLowerCase().includes(term.toLowerCase())` (no contract of its own) |
| Common.ClampAtZero | iventory-system/src/components/manager/StockMovements.tsx:287 | `Math.max(0, n)` |
| Common.Abs | iventory-system/src/components/manager/StockMovements.tsx:285 | `Math.abs` |

## Left out

- HTTP and database plumbing is not modelled: the routers, JSON bodies, `res.status`, `fetch`,
  the pg pool and server start-up. Handlers are methods over in-memory tables; a response is a
  `Status` value and a `fetch` result is a parameter.
- Atomicity: `POST /stock-adjustment` is modelled as an atomic transaction. The code does not
  guarantee this. It reads the stock before `BEGIN`, and it sends `BEGIN`/`COMMIT` through
  `pool.query`, which may pick a different pooled connection each time. Concurrency is not modelled.
- TaskManagement.TaskManagementPage.UpdateTaskStatus: the page builds the new list from the
  `tasks` captured when it rendered (`setTasks(tasks.map(...))`), not from the latest state. Two
  updates in flight can therefore lose one of them; the model runs handlers one at a time.
- Listing and fetch handlers (`GET` routes, the pages' `load*` functions and the mock data they
  fall back on) are not modelled. Neither are the SQL aggregates of `/stats` and `/reports/*`
  beyond the low and out-of-stock tests, nor the `/low-stock` ordering by a floating-point ratio.
- Rendering is not modelled: JSX, colours, icons, modals, `MainLayout`, `Navbar` and the three role dashboards.
- Browser APIs (`prompt`, `confirm`, `Blob` exports, `localStorage`) and time become parameters.
  The timers that clear messages are not modelled.
- AdminRoutes.ApplySettings: one `now` stamps `updated_at` on every row of a settings update. The
  route's UPDATEs run outside a transaction, so each gets its own `CURRENT_TIMESTAMP`; no property
  here depends on the stamps being equal.
- Floating point (prices, percentages, completion rates) is not modelled. `Number()` form inputs
  are taken to be integers.
- Case-insensitive search is ASCII-only: `Text.Lower` folds `A`–`Z` only, not Unicode case.
- Purchase-order line items and amounts are not modelled; an order keeps the fields its handlers and filter read.
- The authentication controllers, the login page, the API test clients and the thin admin pages
  (user, category and report management, user creation) are not part of this model.
- AppRoutes.RouteFor: paths are matched exactly. React Router's case-insensitive matching and
  trailing-slash handling are not modelled.
- ProtectedRoute.Guard: the original location handed to `Navigate` (`state`, `replace`) is not modelled.
- LayoutSidebar.SidebarState.Click: the `onClose` call after navigating is only the returned path, and the active-item highlight is not modelled.
- StockMovements.StockMovementsPage.HandleSubmit: the `try`/`catch` around it has nothing to catch in the model.
- Permissions.RoleName: a role string outside the table makes `hasPermission` throw. The pages
  that use it are modelled with the parsed `Role`; only `CommonSidebar.Entries` models the failure.
