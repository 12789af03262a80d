/**
 * The layout's sidebar: a menu chosen by role, whose items either open a sub-menu or navigate,
 * and the list of expanded menus, which starts with the inventory menu open.
 */
module LayoutSidebar {
  import opened Common
  import opened Permissions
  import opened ProtectedRoute
  import opened AppRoutes
  import opened Menus

  /** A menu entry: a leaf with a path, or a parent with child entries. */
  datatype MenuItem = MenuItem(id: string, title: string, path: Option<string>, children: seq<MenuItem>)

  function Leaf(id: string, title: string, path: string): MenuItem {
    MenuItem(id, title, Some(path), [])
  }

  function DashboardItem(): MenuItem {
    Leaf("dashboard", "Dashboard", "/dashboard")
  }

  function AdminMenu(): seq<MenuItem> {
    [DashboardItem(),
     Leaf("users", "User Management", "/admin/users"),
     MenuItem("inventory", "Inventory", None,
              [Leaf("products", "Products", "/admin/products"),
               Leaf("categories", "Categories", "/admin/categories")]),
     Leaf("reports", "Reports", "/admin/reports"),
     Leaf("settings", "Settings", "/admin/settings")]
  }

  function ManagerMenu(): seq<MenuItem> {
    [DashboardItem(),
     MenuItem("inventory", "Inventory", None,
              [Leaf("inventory-management", "Inventory Management", "/manager/inventory"),
               Leaf("stock-movements", "Stock Movements", "/manager/stock-movements")]),
     Leaf("purchase-orders", "Purchase Orders", "/manager/purchase-orders"),
     Leaf("staff-oversight", "Staff Management", "/manager/staff"),
     Leaf("suppliers", "Suppliers", "/manager/suppliers"),
     Leaf("reports", "Reports", "/manager/reports")]
  }

  function StaffMenu(): seq<MenuItem> {
    [DashboardItem(),
     Leaf("tasks", "My Tasks", "/staff/tasks"),
     Leaf("inventory-view", "View Inventory", "/staff/inventory"),
     Leaf("profile", "Profile", "/staff/profile")]
  }

  /** `getMenuItems`: the admin or manager menu by role name, the staff menu for every other role. */
  function MenuItems(user: Option<User>): (items: seq<MenuItem>)
    ensures |items| > 0 && items[0] == MenuItem("dashboard", "Dashboard", Some("/dashboard"), [])
    ensures EffectiveRole(user) == "admin" ==> items == AdminMenu()
    ensures EffectiveRole(user) == "manager" ==> items == ManagerMenu()
    ensures EffectiveRole(user) != "admin" && EffectiveRole(user) != "manager" ==> items == StaffMenu()
  {
    var role := EffectiveRole(user);
    if role == "admin" then AdminMenu()
    else if role == "manager" then ManagerMenu()
    else StaffMenu()
  }

  /** The ids of a list of entries. */
  function Ids(items: seq<MenuItem>): (ids: seq<string>)
    ensures |ids| == |items| && forall i :: 0 <= i < |items| ==> ids[i] == items[i].id
  {
    seq(|items|, i requires 0 <= i < |items| => items[i].id)
  }

  /** The admin menu: dashboard, users, inventory with products and categories, reports, settings. */
  lemma AdminMenuShape()
    ensures Ids(AdminMenu()) == ["dashboard", "users", "inventory", "reports", "settings"]
    ensures Ids(AdminMenu()[2].children) == ["products", "categories"]
  {
  }

  /** The manager menu: dashboard, inventory with its two pages, purchase orders, staff, suppliers, reports. */
  lemma ManagerMenuShape()
    ensures Ids(ManagerMenu()) == ["dashboard", "inventory", "purchase-orders", "staff-oversight", "suppliers", "reports"]
    ensures Ids(ManagerMenu()[1].children) == ["inventory-management", "stock-movements"]
  {
  }

  /** Every path an entry list links to, each parent's own before its children's, in menu order. */
  function Links(items: seq<MenuItem>): (paths: seq<string>)
    decreases items
  {
    if items == [] then []
    else
      (if items[0].path.Some? then [items[0].path.value] else []) + Links(items[0].children) + Links(items[1..])
  }

  /** The admin menu links to the dashboard and to five of the six admin pages; the user creation page has no entry. */
  lemma AdminLinks()
    ensures Links(AdminMenu()) == ["/dashboard"] + AdminPaths()[..1] + AdminPaths()[2..]
  {
    var m := AdminMenu();
    var kids := m[2].children;
    assert Links(kids[1..]) == ["/admin/categories"] by { assert kids[1..][1..] == []; }
    assert Links(kids) == ["/admin/products", "/admin/categories"];
    assert Links(m[4..]) == ["/admin/settings"] by { assert m[4..][1..] == []; }
    assert Links(m[3..]) == ["/admin/reports", "/admin/settings"] by { assert m[3..][1..] == m[4..]; }
    assert Links(m[2..]) == ["/admin/products", "/admin/categories", "/admin/reports", "/admin/settings"]
      by { assert m[2..][1..] == m[3..]; }
    assert m[1..][1..] == m[2..];
  }

  /** Every admin menu link opens for an admin. */
  lemma AdminLinksOpen()
    ensures forall p :: p in Links(AdminMenu()) ==> Visit(SignedIn(Admin), p).Shown?
  {
    AdminLinks();
    forall p | p in Links(AdminMenu()) ensures Visit(SignedIn(Admin), p).Shown? {
      if p != "/dashboard" {
        AdminPagesForAdminOnly(Admin, p);
      }
    }
  }

  /** The manager menu links to the dashboard and to all six manager pages. */
  lemma ManagerLinks()
    ensures var mp := ManagerPaths();
            Links(ManagerMenu()) == ["/dashboard", mp[0], mp[5], mp[1], mp[2], mp[4], mp[3]]
  {
    var m := ManagerMenu();
    var kids := m[1].children;
    assert Links(kids[1..]) == ["/manager/stock-movements"] by { assert kids[1..][1..] == []; }
    assert Links(kids) == ["/manager/inventory", "/manager/stock-movements"];
    assert Links(m[5..]) == ["/manager/reports"] by { assert m[5..][1..] == []; }
    assert Links(m[4..]) == ["/manager/suppliers", "/manager/reports"] by { assert m[4..][1..] == m[5..]; }
    assert Links(m[3..]) == ["/manager/staff", "/manager/suppliers", "/manager/reports"]
      by { assert m[3..][1..] == m[4..]; }
    assert Links(m[2..]) == ["/manager/purchase-orders", "/manager/staff", "/manager/suppliers", "/manager/reports"]
      by { assert m[2..][1..] == m[3..]; }
    assert m[1..][1..] == m[2..];
  }

  /** Every manager menu link opens for a manager. */
  lemma ManagerLinksOpen()
    ensures forall p :: p in Links(ManagerMenu()) ==> Visit(SignedIn(Manager), p).Shown?
  {
    ManagerLinks();
    forall p | p in Links(ManagerMenu()) ensures Visit(SignedIn(Manager), p).Shown? {
      if p != "/dashboard" {
        ManagerPagesClosedToStaff(Manager, p);
      }
    }
  }

  /** The staff menu links to the dashboard, the two staff pages and a profile page. */
  lemma StaffLinks()
    ensures Links(StaffMenu()) == ["/dashboard", StaffPaths()[1], StaffPaths()[0], "/staff/profile"]
  {
    var m := StaffMenu();
    assert Links(m[3..]) == ["/staff/profile"] by { assert m[3..][1..] == []; }
    assert Links(m[2..]) == ["/staff/inventory", "/staff/profile"] by { assert m[2..][1..] == m[3..]; }
    assert m[1..][1..] == m[2..];
  }

  /** Every staff menu link opens for staff, except the profile link, for which no route exists: it shows nothing. */
  lemma StaffLinksOpenButProfile(auth: AuthState)
    ensures forall p :: p in Links(StaffMenu()) && p != "/staff/profile" ==> Visit(SignedIn(Staff), p).Shown?
    ensures "/staff/profile" in Links(StaffMenu()) && RouteFor("/staff/profile").None?
    ensures Visit(auth, "/staff/profile") == Blank
  {
    StaffLinks();
    forall p | p in Links(StaffMenu()) && p != "/staff/profile" ensures Visit(SignedIn(Staff), p).Shown? {
      if p != "/dashboard" {
        StaffPagesOpenToEveryRole(Staff, p);
      }
    }
  }

  /** What a click on an entry does. */
  datatype ClickAction = ToggleSubmenu(menuId: string) | GoTo(target: string) | NoAction

  /** A parent with children toggles its sub-menu; a leaf navigates when its path is not empty. */
  function ClickActionFor(item: MenuItem): (a: ClickAction)
    ensures a.ToggleSubmenu? <==> |item.children| > 0
    ensures a.ToggleSubmenu? ==> a.menuId == item.id
    ensures a.GoTo? <==> |item.children| == 0 && item.path.Some? && item.path.value != ""
    ensures a.GoTo? ==> a.target == item.path.value
  {
    if |item.children| > 0 then ToggleSubmenu(item.id)
    else if item.path.Some? && item.path.value != "" then GoTo(item.path.value)
    else NoAction
  }

  /** Every entry of every menu does something on a click: the parents toggle, the leaves navigate. */
  lemma EveryEntryActs(user: Option<User>, i: nat)
    requires i < |MenuItems(user)|
    ensures !ClickActionFor(MenuItems(user)[i]).NoAction?
  {
  }

  /** The sidebar's state: the ids of the expanded menus. */
  class SidebarState {
    var expandedMenus: seq<string>

    constructor ()
      ensures expandedMenus == ["inventory"]
    {
      expandedMenus := ["inventory"];
    }

    /** `toggleMenu`. */
    method ToggleMenu(menuId: string)
      modifies this
      ensures expandedMenus == Toggled(old(expandedMenus), menuId)
    {
      expandedMenus := Toggled(expandedMenus, menuId);
    }

    /**
     * A click on an entry: a parent toggles its menu; a leaf with a path returns that path, which
     * the sidebar navigates to before it asks to be closed; anything else does nothing.
     */
    method Click(item: MenuItem) returns (navigateTo: Option<string>)
      modifies this
      ensures ClickActionFor(item).ToggleSubmenu? ==>
        expandedMenus == Toggled(old(expandedMenus), item.id) && navigateTo.None?
      ensures ClickActionFor(item).GoTo? ==>
        expandedMenus == old(expandedMenus) && navigateTo == Some(item.path.value)
      ensures ClickActionFor(item).NoAction? ==> expandedMenus == old(expandedMenus) && navigateTo.None?
    {
      if |item.children| > 0 {
        ToggleMenu(item.id);
        navigateTo := None;
      } else if item.path.Some? && item.path.value != "" {
        navigateTo := Some(item.path.value);
      } else {
        navigateTo := None;
      }
    }
  }
}
