/**
 * The backend's PostgreSQL tables as the route handlers see them: each table is a map from the
 * row id to the row, and the stock-movement table, which is only ever appended to, is a list in
 * insertion order. Columns the handlers never read or write are left out.
 */
module Schema {
  import opened Common

  /** The HTTP status a handler answers with. */
  datatype Status = Ok200 | Created201 | BadRequest400 | NotFound404 | ServerError500

  /**
   * Which database query of a handler fails, counting the handler's queries from 0; every
   * handler catches the failure and answers 500.
   */
  datatype Fault = NoFault | FailsAt(query: nat)

  predicate FailsAtQuery(f: Fault, k: nat) {
    f.FailsAt? && f.query == k
  }

  /** A `products` row: the columns the routes filter on or write. */
  datatype ProductRow = ProductRow(
    name: string,
    supplierId: Option<int>,
    stockQuantity: int,
    minStockLevel: int,
    isActive: bool,
    updatedAt: int)

  /** A `stock_movements` row. */
  datatype MovementRow = MovementRow(
    productId: int,
    movementType: string,
    quantity: int,
    reason: string,
    previousStock: int,
    newStock: int,
    createdBy: int)

  /**
   * A `suppliers` row. A column the request body leaves out is written as SQL NULL, which is
   * `None` here.
   */
  datatype SupplierRow = SupplierRow(
    name: Option<string>,
    contactPerson: Option<string>,
    email: Option<string>,
    phone: Option<string>,
    address: Option<string>,
    isActive: Option<bool>,
    createdBy: Option<int>,
    updatedAt: int)

  /** A `users` row. */
  datatype UserRow = UserRow(email: string, role: string, isActive: Option<bool>)

  /** A `system_settings` row. */
  datatype SettingRow = SettingRow(key: string, value: string, updatedAt: int)

  /** `stock_quantity <= min_stock_level AND is_active = true`, the dashboards' low-stock test. */
  predicate IsLowStock(p: ProductRow) {
    p.isActive && p.stockQuantity <= p.minStockLevel
  }

  /** `stock_quantity = 0 AND is_active = true`, the manager dashboard's out-of-stock test. */
  predicate IsOutOfStock(p: ProductRow) {
    p.isActive && p.stockQuantity == 0
  }

  /** The ids of the rows a statistics query counts. */
  function LowStockIds(products: map<int, ProductRow>): (ids: set<int>)
    ensures forall id :: id in ids <==> id in products && IsLowStock(products[id])
  {
    set id | id in products && IsLowStock(products[id])
  }

  function OutOfStockIds(products: map<int, ProductRow>): (ids: set<int>)
    ensures forall id :: id in ids <==> id in products && IsOutOfStock(products[id])
  {
    set id | id in products && IsOutOfStock(products[id])
  }

  /**
   * An out-of-stock product is also counted as low in stock exactly when its minimum level is
   * not negative; so with non-negative minimum levels the out-of-stock count never exceeds the
   * low-stock count.
   */
  lemma OutOfStockIsLowStock(products: map<int, ProductRow>)
    requires forall id :: id in products ==> products[id].minStockLevel >= 0
    ensures OutOfStockIds(products) <= LowStockIds(products)
    ensures |OutOfStockIds(products)| <= |LowStockIds(products)|
  {
    forall id | id in OutOfStockIds(products)
      ensures id in LowStockIds(products)
    {
      assert products[id].minStockLevel >= 0;
    }
    SubsetCardinality(OutOfStockIds(products), LowStockIds(products));
  }

  lemma SubsetCardinality(a: set<int>, b: set<int>)
    requires a <= b
    ensures |a| <= |b|
  {
    assert b == a + (b - a);
  }

  /** The database behind all three route files. */
  class Database {
    var products: map<int, ProductRow>
    var movements: seq<MovementRow>
    var suppliers: map<int, SupplierRow>
    var nextSupplierId: int
    var users: map<int, UserRow>
    var settings: map<int, SettingRow>

    /** The `suppliers` id sequence is ahead of every id in use. */
    ghost predicate Valid()
      reads this
    {
      forall id :: id in suppliers ==> id < nextSupplierId
    }

    constructor (products: map<int, ProductRow>, suppliers: map<int, SupplierRow>, nextSupplierId: int,
                 users: map<int, UserRow>, settings: map<int, SettingRow>)
      requires forall id :: id in suppliers ==> id < nextSupplierId
      ensures Valid()
      ensures this.products == products && this.movements == []
      ensures this.suppliers == suppliers && this.nextSupplierId == nextSupplierId
      ensures this.users == users && this.settings == settings
    {
      this.products := products;
      this.movements := [];
      this.suppliers := suppliers;
      this.nextSupplierId := nextSupplierId;
      this.users := users;
      this.settings := settings;
    }
  }
}
