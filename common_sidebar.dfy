/**
 * The permission-gated sidebar: Dashboard and Products always, then one entry per permission
 * the user's role holds, and the list of expanded menus, which starts with the dashboard menu.
 */
module CommonSidebar {
  import opened Common
  import opened Lists
  import opened Permissions
  import opened ProtectedRoute
  import opened Menus
  import PermissionFacts

  datatype Entry = DashboardEntry | ProductsEntry | SalesEntry | PurchaseOrdersEntry | ReportsEntry
                 | UsersEntry | SettingsEntry

  /** The entries in the order the sidebar lays them out. */
  function AllEntries(): seq<Entry> {
    [DashboardEntry, ProductsEntry, SalesEntry, PurchaseOrdersEntry, ReportsEntry, UsersEntry, SettingsEntry]
  }

  /** Every entry has its place in the layout. */
  lemma EntryListed(e: Entry)
    ensures e in AllEntries()
  {
    var es := AllEntries();
    match e
    case DashboardEntry => assert es[0] == e;
    case ProductsEntry => assert es[1] == e;
    case SalesEntry => assert es[2] == e;
    case PurchaseOrdersEntry => assert es[3] == e;
    case ReportsEntry => assert es[4] == e;
    case UsersEntry => assert es[5] == e;
    case SettingsEntry => assert es[6] == e;
  }

  /** The permission an entry is gated on; Dashboard and Products have none. */
  function Gate(e: Entry): (p: Option<Permission>)
    ensures p.None? <==> e == DashboardEntry || e == ProductsEntry
  {
    match e
    case DashboardEntry => None
    case ProductsEntry => None
    case SalesEntry => Some(SalesRead)
    case PurchaseOrdersEntry => Some(PurchaseOrdersRead)
    case ReportsEntry => Some(ReportsStock)
    case UsersEntry => Some(UsersRead)
    case SettingsEntry => Some(SettingsRead)
  }

  predicate Passes(r: Role, e: Entry) {
    Gate(e).None? || HasPermission(r, Gate(e).value)
  }

  /**
   * The entries rendered for the session's user, or `None` when the role name is none of the
   * three: the permission table has no row for it and the first gated entry fails to render.
   */
  function Entries(user: Option<User>): (r: Option<seq<Entry>>)
    ensures r.None? <==> ParseRole(EffectiveRole(user)).None?
    ensures r.Some? ==> IsSubsequence(r.value, AllEntries())
  {
    match ParseRole(EffectiveRole(user))
    case None => None
    case Some(role) => Some(Filter(AllEntries(), e => Passes(role, e)))
  }

  /** A known role sees an entry exactly when the entry is ungated or the role holds its permission. */
  lemma ShownIffPermitted(user: Option<User>, e: Entry)
    requires ParseRole(EffectiveRole(user)).Some?
    ensures e in Entries(user).value <==> Passes(ParseRole(EffectiveRole(user)).value, e)
  {
    EntryListed(e);
  }

  /** Dashboard and Products are shown to every known role. */
  lemma UngatedEntriesAlwaysShown(user: Option<User>)
    requires Entries(user).Some?
    ensures DashboardEntry in Entries(user).value && ProductsEntry in Entries(user).value
  {
    ShownIffPermitted(user, DashboardEntry);
    ShownIffPermitted(user, ProductsEntry);
  }

  /** No role, or an empty one, is read as staff. */
  lemma MissingRoleIsStaff()
    ensures Entries(None) == Entries(Some(User(""))) == Entries(Some(User(RoleName(Staff)))) != None
  {
  }

  /** Admin and manager see every entry. */
  lemma AdminAndManagerSeeEverything(r: Role, e: Entry)
    requires r != Staff
    ensures e in Entries(Some(User(RoleName(r)))).value
  {
    ParseRoleName(r);
    ShownIffPermitted(Some(User(RoleName(r))), e);
    match r
    case Admin => if Gate(e).Some? { PermissionFacts.AdminHoldsTheRest(Gate(e).value); }
    case Manager => ManagerHoldsGates(e);
  }

  lemma ManagerHoldsGates(e: Entry)
    ensures Passes(Manager, e)
  {
  }

  /** Staff see every entry but Settings; in particular they see Users, for staff hold `users.read`. */
  lemma StaffSeeAllButSettings(e: Entry)
    ensures e in Entries(Some(User(RoleName(Staff)))).value <==> e != SettingsEntry
  {
    ShownIffPermitted(Some(User(RoleName(Staff))), e);
    StaffGates(e);
  }

  lemma StaffGates(e: Entry)
    ensures Passes(Staff, e) <==> e != SettingsEntry
  {
  }

  /** The sidebar's state: the ids of the expanded menus. */
  class SidebarState {
    var expandedMenus: seq<string>

    constructor ()
      ensures expandedMenus == ["dashboard"]
    {
      expandedMenus := ["dashboard"];
    }

    /** `toggleMenu`. */
    method ToggleMenu(menuId: string)
      modifies this
      ensures expandedMenus == Toggled(old(expandedMenus), menuId)
    {
      expandedMenus := Toggled(expandedMenus, menuId);
    }
  }
}
