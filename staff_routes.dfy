/**
 * The staff API: `POST /stock-adjustment`, which sets a product's stock and records the change in
 * the movement ledger, and `PUT /tasks/:id`, which only answers.
 */
module StaffRoutes {
  import opened Common
  import opened Schema

  /**
   * The stock a request asks for: `adjustment` names the new level itself; every other movement
   * type (damaged, expired, ...) takes the magnitude of the quantity off the current level.
   */
  function TargetStock(movementType: string, current: int, quantity: int): (s: int)
    ensures movementType == "adjustment" ==> s == quantity
    ensures movementType != "adjustment" ==> s <= current && current - s == Abs(quantity)
  {
    if movementType == "adjustment" then quantity else current - Abs(quantity)
  }

  /** The `created_by` the handler records: the request's, or 1 when the body has none. */
  function Creator(createdBy: Option<int>): (c: int)
    ensures createdBy.Some? ==> c == createdBy.value
    ensures createdBy.None? ==> c == 1
  {
    if createdBy.Some? then createdBy.value else 1
  }

  /** The `new_stock` of the last movement recorded for a product, if any was recorded. */
  function LastNewStock(ms: seq<MovementRow>, pid: int): (r: Option<int>)
    ensures r.None? <==> forall i :: 0 <= i < |ms| ==> ms[i].productId != pid
    ensures r.Some? ==> exists i :: 0 <= i < |ms| && ms[i].productId == pid && ms[i].newStock == r.value
  {
    if ms == [] then None
    else
      var init := ms[..|ms| - 1];
      var last := ms[|ms| - 1];
      assert forall i :: 0 <= i < |init| ==> init[i] == ms[i];
      if last.productId == pid then Some(last.newStock) else LastNewStock(init, pid)
  }

  /** Recording a movement for `pid` makes it the last one for `pid` and hides nothing else. */
  lemma LastNewStockAppend(ms: seq<MovementRow>, row: MovementRow, pid: int)
    ensures LastNewStock(ms + [row], pid) ==
            if row.productId == pid then Some(row.newStock) else LastNewStock(ms, pid)
  {
    assert (ms + [row])[..|ms|] == ms;
  }

  /** Every product that has a movement stands at the `new_stock` its last movement recorded. */
  ghost predicate LedgerAgrees(products: map<int, ProductRow>, ms: seq<MovementRow>) {
    forall pid :: pid in products && LastNewStock(ms, pid).Some? ==>
      LastNewStock(ms, pid).value == products[pid].stockQuantity
  }

  /** Every movement refers to an existing product and records a non-negative result. */
  ghost predicate LedgerWellFormed(products: map<int, ProductRow>, ms: seq<MovementRow>) {
    forall i :: 0 <= i < |ms| ==> ms[i].productId in products && ms[i].newStock >= 0
  }

  /** A successful adjustment: the product row takes the new level, and one movement row is appended. */
  function AdjustedProducts(products: map<int, ProductRow>, pid: int, newStock: int, now: int): map<int, ProductRow>
    requires pid in products
  {
    products[pid := products[pid].(stockQuantity := newStock, updatedAt := now)]
  }

  /** Applying an accepted adjustment keeps the ledger in agreement with the product table. */
  lemma {:induction false} AdjustmentKeepsLedger(products: map<int, ProductRow>, ms: seq<MovementRow>,
                                                 pid: int, newStock: int, now: int, row: MovementRow)
    requires pid in products && row.productId == pid && row.newStock == newStock && newStock >= 0
    requires LedgerAgrees(products, ms) && LedgerWellFormed(products, ms)
    ensures LedgerAgrees(AdjustedProducts(products, pid, newStock, now), ms + [row])
    ensures LedgerWellFormed(AdjustedProducts(products, pid, newStock, now), ms + [row])
  {
    var after := AdjustedProducts(products, pid, newStock, now);
    forall q | q in after && LastNewStock(ms + [row], q).Some?
      ensures LastNewStock(ms + [row], q).value == after[q].stockQuantity
    {
      LastNewStockAppend(ms, row, q);
    }
  }

  /** One of the queries from BEGIN to COMMIT fails. */
  predicate TransactionFails(fault: Fault) {
    fault.FailsAt? && 1 <= fault.query <= 4
  }

  /**
   * `POST /stock-adjustment`. Its queries, numbered as `fault` counts them: 0 reads the product,
   * 1 is BEGIN, 2 updates the product, 3 inserts the movement, 4 is COMMIT; a failure after BEGIN
   * rolls back what the transaction wrote.
   */
  method StockAdjustment(db: Database, productId: int, quantity: int, movementType: string, reason: string,
                         createdBy: Option<int>, now: int, fault: Fault) returns (status: Status)
    requires db.Valid()
    modifies db
    ensures db.Valid()
    ensures db.suppliers == old(db.suppliers) && db.nextSupplierId == old(db.nextSupplierId)
    ensures db.users == old(db.users) && db.settings == old(db.settings)
    ensures FailsAtQuery(fault, 0) ==> status == ServerError500
    ensures !FailsAtQuery(fault, 0) && productId !in old(db.products) ==> status == NotFound404
    ensures productId in old(db.products) && !FailsAtQuery(fault, 0) ==>
      var target := TargetStock(movementType, old(db.products)[productId].stockQuantity, quantity);
      (target < 0 ==> status == BadRequest400) &&
      (target >= 0 && TransactionFails(fault) ==> status == ServerError500) &&
      (target >= 0 && !TransactionFails(fault) ==> status == Ok200)
    ensures status != Ok200 ==> db.products == old(db.products) && db.movements == old(db.movements)
    ensures status == Ok200 ==>
      productId in old(db.products) &&
      var previous := old(db.products)[productId].stockQuantity;
      var target := TargetStock(movementType, previous, quantity);
      target >= 0 &&
      db.products == AdjustedProducts(old(db.products), productId, target, now) &&
      db.movements == old(db.movements) +
        [MovementRow(productId, movementType, Abs(quantity), reason, previous, target, Creator(createdBy))]
    ensures old(LedgerAgrees(db.products, db.movements) && LedgerWellFormed(db.products, db.movements)) ==>
      LedgerAgrees(db.products, db.movements) && LedgerWellFormed(db.products, db.movements)
  {
    if FailsAtQuery(fault, 0) {
      return ServerError500;
    }
    if productId !in db.products {
      return NotFound404;
    }
    var currentStock := db.products[productId].stockQuantity;
    var newStock: int;
    if movementType == "adjustment" {
      newStock := quantity;
    } else {
      newStock := currentStock - Abs(quantity);
    }
    if newStock < 0 {
      return BadRequest400;
    }
    if FailsAtQuery(fault, 1) {
      return ServerError500;
    }
    var savedProducts, savedMovements := db.products, db.movements;
    if FailsAtQuery(fault, 2) {
      return ServerError500;
    }
    db.products := AdjustedProducts(db.products, productId, newStock, now);
    if FailsAtQuery(fault, 3) {
      db.products := savedProducts;
      return ServerError500;
    }
    var row := MovementRow(productId, movementType, Abs(quantity), reason, currentStock, newStock, Creator(createdBy));
    db.movements := db.movements + [row];
    if FailsAtQuery(fault, 4) {
      db.products, db.movements := savedProducts, savedMovements;
      return ServerError500;
    }
    if LedgerAgrees(savedProducts, savedMovements) && LedgerWellFormed(savedProducts, savedMovements) {
      AdjustmentKeepsLedger(savedProducts, savedMovements, productId, newStock, now, row);
    }
    status := Ok200;
  }

  /** `PUT /tasks/:id`: answers success and writes nothing (there is no tasks table). */
  method UpdateTask(db: Database, id: int, newStatus: string) returns (status: Status)
    ensures status == Ok200
  {
    status := Ok200;
  }
}
