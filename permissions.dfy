/**
 * Role-based access control: a fixed table from each role to the list of permissions it holds,
 * and the lookups every page uses to gate what it shows.
 */
module Permissions {
  import opened Common

  datatype Role = Admin | Manager | Staff

  datatype Permission =
    // user management
    | UsersCreate | UsersRead | UsersUpdate | UsersDelete | UsersAssignRoles
    // product management
    | ProductsCreate | ProductsRead | ProductsUpdate | ProductsDelete | ProductsAdjustStock
    // category management
    | CategoriesCreate | CategoriesRead | CategoriesUpdate | CategoriesDelete
    // supplier management
    | SuppliersCreate | SuppliersRead | SuppliersUpdate | SuppliersDelete
    // purchase orders
    | PurchaseOrdersCreate | PurchaseOrdersRead | PurchaseOrdersUpdate | PurchaseOrdersDelete
    | PurchaseOrdersApprove | PurchaseOrdersReceive
    // sales
    | SalesCreate | SalesRead | SalesUpdate | SalesDelete | SalesRefund
    // stock management
    | StockRecordIn | StockRecordOut | StockAdjust | StockTransfer | StockViewMovements
    // reports
    | ReportsSales | ReportsStock | ReportsAudit | ReportsFinancial | ReportsExport
    // system settings
    | SettingsRead | SettingsUpdate | SettingsTax | SettingsCompany | SettingsBackup
    // audit and logs
    | AuditRead | AuditExport
    // dashboard access
    | DashboardAdmin | DashboardManager | DashboardStaff

  /** The role's name as the application stores it in `user.role`. */
  function RoleName(r: Role): string {
    match r
    case Admin => "admin"
    case Manager => "manager"
    case Staff => "staff"
  }

  /** The role a stored name denotes, if it is one of the three. */
  function ParseRole(name: string): (r: Option<Role>)
    ensures r.Some? ==> RoleName(r.value) == name
    ensures r.None? ==> forall role: Role :: RoleName(role) != name
  {
    if name == "admin" then Some(Admin)
    else if name == "manager" then Some(Manager)
    else if name == "staff" then Some(Staff)
    else None
  }

  lemma ParseRoleName(r: Role)
    ensures ParseRole(RoleName(r)) == Some(r)
  {
  }

  /**
   * `ROLE_PERMISSIONS`, in the order the table lists them; each bracketed group is one line or
   * one commented group of the table.
   */
  function RolePermissions(r: Role): seq<Permission> {
    match r
    case Admin =>
      [UsersCreate, UsersRead, UsersUpdate, UsersDelete, UsersAssignRoles] +
      [ProductsCreate, ProductsRead, ProductsUpdate, ProductsDelete, ProductsAdjustStock] +
      [CategoriesCreate, CategoriesRead, CategoriesUpdate, CategoriesDelete] +
      [SuppliersCreate, SuppliersRead, SuppliersUpdate, SuppliersDelete] +
      [PurchaseOrdersCreate, PurchaseOrdersRead, PurchaseOrdersUpdate, PurchaseOrdersDelete,
       PurchaseOrdersApprove, PurchaseOrdersReceive] +
      [SalesCreate, SalesRead, SalesUpdate, SalesDelete, SalesRefund] +
      [StockRecordIn, StockRecordOut, StockAdjust, StockTransfer, StockViewMovements] +
      [ReportsSales, ReportsStock, ReportsAudit, ReportsFinancial, ReportsExport] +
      [SettingsRead, SettingsUpdate, SettingsTax, SettingsCompany, SettingsBackup] +
      [AuditRead, AuditExport] +
      [DashboardAdmin]
    case Manager =>
      [UsersRead] +
      [ProductsCreate, ProductsRead, ProductsUpdate, ProductsAdjustStock] +
      [CategoriesRead, CategoriesCreate, CategoriesUpdate] +
      [SuppliersRead, SuppliersCreate, SuppliersUpdate] +
      [PurchaseOrdersCreate, PurchaseOrdersRead, PurchaseOrdersUpdate, PurchaseOrdersApprove,
       PurchaseOrdersReceive] +
      [SalesCreate, SalesRead, SalesUpdate, SalesRefund] +
      [StockRecordIn, StockRecordOut, StockAdjust, StockTransfer, StockViewMovements] +
      [ReportsSales, ReportsStock, ReportsExport] +
      [SettingsRead] +
      [DashboardManager]
    case Staff =>
      [UsersRead] +
      [ProductsRead, CategoriesRead, SuppliersRead] +
      [PurchaseOrdersRead] +
      [SalesCreate, SalesRead] +
      [StockRecordIn, StockRecordOut, StockViewMovements] +
      [ReportsStock] +
      [DashboardStaff]
  }

  /** `hasPermission`: the permission is listed for the role. */
  predicate HasPermission(r: Role, p: Permission) {
    p in RolePermissions(r)
  }

  /**
   * `getRolePermissions`: the role's row of the table. It holds the role's own dashboard
   * permission; `PermissionFacts.RoleRowDashboards` shows it holds no other.
   */
  function GetRolePermissions(r: Role): (ps: seq<Permission>)
    ensures DashboardPermission(r) in ps
  {
    RolePermissions(r)
  }

  /** `hasAnyPermission` (`permissions.some(...)`). */
  function HasAnyPermission(r: Role, ps: seq<Permission>): (b: bool)
    ensures b <==> exists i :: 0 <= i < |ps| && HasPermission(r, ps[i])
  {
    if ps == [] then false
    else
      assert forall i :: 0 < i < |ps| ==> ps[i] == ps[1..][i - 1];
      HasPermission(r, ps[0]) || HasAnyPermission(r, ps[1..])
  }

  /** `hasAllPermissions` (`permissions.every(...)`). */
  function HasAllPermissions(r: Role, ps: seq<Permission>): (b: bool)
    ensures b <==> forall i :: 0 <= i < |ps| ==> HasPermission(r, ps[i])
  {
    if ps == [] then true
    else
      assert forall i :: 0 < i < |ps| ==> ps[i] == ps[1..][i - 1];
      HasPermission(r, ps[0]) && HasAllPermissions(r, ps[1..])
  }

  /** For an empty list `some` is false and `every` is true; otherwise `every` implies `some`. */
  lemma AnyAllOnLists(r: Role, ps: seq<Permission>)
    ensures ps == [] ==> !HasAnyPermission(r, ps) && HasAllPermissions(r, ps)
    ensures ps != [] && HasAllPermissions(r, ps) ==> HasAnyPermission(r, ps)
  {
    if ps != [] && HasAllPermissions(r, ps) {
      assert HasPermission(r, ps[0]);
    }
  }

  predicate IsDashboardPermission(p: Permission) {
    p == DashboardAdmin || p == DashboardManager || p == DashboardStaff
  }

  /** The dashboard permission named after a role. */
  function DashboardPermission(r: Role): (p: Permission)
    ensures IsDashboardPermission(p)
  {
    match r
    case Admin => DashboardAdmin
    case Manager => DashboardManager
    case Staff => DashboardStaff
  }

  /** `PERMISSION_DESCRIPTIONS`: a text for every permission. */
  function Description(p: Permission): (d: string)
    ensures |d| > 0
  {
    match p
    case UsersCreate => "Create new users"
    case UsersRead => "View user information"
    case UsersUpdate => "Update user details"
    case UsersDelete => "Delete users"
    case UsersAssignRoles => "Assign roles to users"
    case ProductsCreate => "Add new products"
    case ProductsRead => "View product information"
    case ProductsUpdate => "Update product details"
    case ProductsDelete => "Delete products"
    case ProductsAdjustStock => "Adjust product stock levels"
    case CategoriesCreate => "Create product categories"
    case CategoriesRead => "View categories"
    case CategoriesUpdate => "Update categories"
    case CategoriesDelete => "Delete categories"
    case SuppliersCreate => "Add new suppliers"
    case SuppliersRead => "View supplier information"
    case SuppliersUpdate => "Update supplier details"
    case SuppliersDelete => "Delete suppliers"
    case PurchaseOrdersCreate => "Create purchase orders"
    case PurchaseOrdersRead => "View purchase orders"
    case PurchaseOrdersUpdate => "Update purchase orders"
    case PurchaseOrdersDelete => "Delete purchase orders"
    case PurchaseOrdersApprove => "Approve purchase orders"
    case PurchaseOrdersReceive => "Receive purchase orders"
    case SalesCreate => "Process sales transactions"
    case SalesRead => "View sales records"
    case SalesUpdate => "Update sales information"
    case SalesDelete => "Delete sales records"
    case SalesRefund => "Process refunds"
    case StockRecordIn => "Record stock incoming"
    case StockRecordOut => "Record stock outgoing"
    case StockAdjust => "Adjust stock levels"
    case StockTransfer => "Transfer stock between locations"
    case StockViewMovements => "View stock movement history"
    case ReportsSales => "View sales reports"
    case ReportsStock => "View stock reports"
    case ReportsAudit => "View audit reports"
    case ReportsFinancial => "View financial reports"
    case ReportsExport => "Export reports"
    case SettingsRead => "View system settings"
    case SettingsUpdate => "Update system settings"
    case SettingsTax => "Manage tax settings"
    case SettingsCompany => "Manage company information"
    case SettingsBackup => "Manage system backups"
    case AuditRead => "View audit logs"
    case AuditExport => "Export audit logs"
    case DashboardAdmin => "Access admin dashboard"
    case DashboardManager => "Access manager dashboard"
    case DashboardStaff => "Access staff dashboard"
  }
}

/**
 * What the permission table grants, role against role. Each fact is stated for one role at a
 * time and then combined, which keeps every proof a short search through one role's list.
 */
module PermissionFacts {
  import opened Permissions

  /** Apart from the dashboard entries, staff hold a subset of manager's permissions, and manager of admin's. */
  lemma RoleHierarchy(p: Permission)
    requires !IsDashboardPermission(p)
    ensures HasPermission(Staff, p) ==> HasPermission(Manager, p)
    ensures HasPermission(Manager, p) ==> HasPermission(Admin, p)
  {
    StaffWithinManager(p);
    ManagerWithinAdmin(p);
  }

  lemma StaffWithinManager(p: Permission)
    requires p != DashboardStaff
    ensures HasPermission(Staff, p) ==> HasPermission(Manager, p)
  {
  }

  lemma ManagerWithinAdmin(p: Permission)
    requires p != DashboardManager
    ensures HasPermission(Manager, p) ==> HasPermission(Admin, p)
  {
  }

  /** Each role holds exactly one dashboard permission: the one named after it. */
  lemma OwnDashboardOnly(r: Role, p: Permission)
    requires IsDashboardPermission(p)
    ensures HasPermission(r, p) <==> p == DashboardPermission(r)
  {
    match r
    case Admin => AdminLacksManagerDashboard(); AdminLacksStaffDashboard();
    case Manager => ManagerLacksAdminDashboard(); ManagerLacksStaffDashboard();
    case Staff => if p != DashboardStaff { StaffLacksOtherDashboards(p); }
  }

  /** The only dashboard permission in a role's row is the one named after the role. */
  lemma RoleRowDashboards(r: Role)
    ensures forall p :: p in GetRolePermissions(r) && IsDashboardPermission(p) ==> p == DashboardPermission(r)
  {
    forall p | p in GetRolePermissions(r) && IsDashboardPermission(p)
      ensures p == DashboardPermission(r)
    {
      OwnDashboardOnly(r, p);
    }
  }

  lemma AdminLacksManagerDashboard()
    ensures !HasPermission(Admin, DashboardManager)
  {
  }

  lemma AdminLacksStaffDashboard()
    ensures !HasPermission(Admin, DashboardStaff)
  {
  }

  lemma ManagerLacksAdminDashboard()
    ensures !HasPermission(Manager, DashboardAdmin)
  {
  }

  lemma ManagerLacksStaffDashboard()
    ensures !HasPermission(Manager, DashboardStaff)
  {
  }

  lemma StaffLacksOtherDashboards(p: Permission)
    requires p == DashboardAdmin || p == DashboardManager
    ensures !HasPermission(Staff, p)
  {
  }

  /** Admin holds every permission except the other two roles' dashboards. */
  lemma AdminHoldsAllButOtherDashboards(p: Permission)
    ensures HasPermission(Admin, p) <==> p != DashboardManager && p != DashboardStaff
  {
    AdminLacksManagerDashboard();
    AdminLacksStaffDashboard();
    if p != DashboardManager && p != DashboardStaff {
      AdminHoldsTheRest(p);
    }
  }

  lemma AdminHoldsTheRest(p: Permission)
    requires p != DashboardManager && p != DashboardStaff
    ensures HasPermission(Admin, p)
  {
  }

  /** Staff may record stock in and out and view movements, but not adjust or transfer; manager and admin may do all five. */
  lemma StockPermissions(r: Role)
    ensures HasPermission(r, StockRecordIn) && HasPermission(r, StockRecordOut)
    ensures HasPermission(r, StockViewMovements)
    ensures HasPermission(r, StockAdjust) <==> r != Staff
    ensures HasPermission(r, StockTransfer) <==> r != Staff
  {
    match r
    case Admin => AdminHoldsTheRest(StockRecordIn); AdminHoldsTheRest(StockRecordOut);
      AdminHoldsTheRest(StockViewMovements); AdminHoldsTheRest(StockAdjust);
      AdminHoldsTheRest(StockTransfer);
    case Manager => ManagerStock();
    case Staff => StaffStock();
  }

  lemma ManagerStock()
    ensures HasPermission(Manager, StockRecordIn) && HasPermission(Manager, StockRecordOut)
    ensures HasPermission(Manager, StockViewMovements)
    ensures HasPermission(Manager, StockAdjust) && HasPermission(Manager, StockTransfer)
  {
  }

  lemma StaffStock()
    ensures HasPermission(Staff, StockRecordIn) && HasPermission(Staff, StockRecordOut)
    ensures HasPermission(Staff, StockViewMovements)
    ensures !HasPermission(Staff, StockAdjust) && !HasPermission(Staff, StockTransfer)
  {
    StaffLacksStockChanges(StockAdjust);
    StaffLacksStockChanges(StockTransfer);
  }

  lemma StaffLacksStockChanges(p: Permission)
    requires p == StockAdjust || p == StockTransfer
    ensures !HasPermission(Staff, p)
  {
  }

  /** The permissions only admin holds: creating and deleting users, changing settings, the audit log. */
  predicate AdminOnly(p: Permission) {
    p == UsersCreate || p == UsersDelete || p == SettingsUpdate || p == AuditRead || p == AuditExport
  }

  lemma AdminOnlyPermissions(r: Role, p: Permission)
    requires AdminOnly(p)
    ensures HasPermission(r, p) <==> r == Admin
  {
    match r
    case Admin => AdminHoldsTheRest(p);
    case Manager => ManagerLacksAdminOnly(p);
    case Staff => StaffLacksAdminOnly(p);
  }

  lemma ManagerLacksAdminOnly(p: Permission)
    requires AdminOnly(p)
    ensures !HasPermission(Manager, p)
  {
  }

  lemma StaffLacksAdminOnly(p: Permission)
    requires AdminOnly(p)
    ensures !HasPermission(Staff, p)
  {
  }
}
