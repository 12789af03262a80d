/**
 * The manager API's supplier handlers: create, update and delete on the `suppliers` table, and
 * the product count the supplier listing reports beside each supplier.
 */
module ManagerRoutes {
  import opened Common
  import opened Schema

  /** The JSON body of a create or update request; `None` is a field the body leaves out. */
  datatype SupplierBody = SupplierBody(
    name: Option<string>,
    contactPerson: Option<string>,
    email: Option<string>,
    phone: Option<string>,
    address: Option<string>,
    isActive: Option<bool>,
    createdBy: Option<int>)

  /** The products whose `supplier_id` is `sid`, active or not: what the delete guard counts. */
  function ReferencingProducts(products: map<int, ProductRow>, sid: int): (ids: set<int>)
    ensures forall pid :: pid in ids <==> pid in products && products[pid].supplierId == Some(sid)
  {
    set pid | pid in products && products[pid].supplierId == Some(sid)
  }

  /** The listing's `product_count`: only active products are joined. */
  function ListedProducts(products: map<int, ProductRow>, sid: int): (ids: set<int>)
    ensures forall pid :: pid in ids <==> pid in products && products[pid].supplierId == Some(sid) &&
                                          products[pid].isActive
  {
    set pid | pid in products && products[pid].supplierId == Some(sid) && products[pid].isActive
  }

  /**
   * The listing never reports more products than the delete guard counts, and the two differ
   * exactly by the inactive products of the supplier.
   */
  lemma ListedAmongReferencing(products: map<int, ProductRow>, sid: int)
    ensures ListedProducts(products, sid) <= ReferencingProducts(products, sid)
    ensures |ListedProducts(products, sid)| <= |ReferencingProducts(products, sid)|
    ensures ReferencingProducts(products, sid) - ListedProducts(products, sid) ==
            set pid | pid in products && products[pid].supplierId == Some(sid) && !products[pid].isActive
  {
    SubsetCardinality(ListedProducts(products, sid), ReferencingProducts(products, sid));
  }

  /** A supplier whose only product is inactive is listed with 0 products, yet cannot be deleted. */
  lemma ListedZeroYetReferenced()
    ensures var products := map[1 := ProductRow("Old stock", Some(7), 0, 0, false, 0)];
            |ListedProducts(products, 7)| == 0 && |ReferencingProducts(products, 7)| == 1
  {
    var products := map[1 := ProductRow("Old stock", Some(7), 0, 0, false, 0)];
    assert ListedProducts(products, 7) == {};
    assert ReferencingProducts(products, 7) == {1};
  }

  /** The row `POST /suppliers` inserts: the body's fields, `is_active` defaulting to true and `created_by` to 1. */
  function NewSupplierRow(body: SupplierBody, now: int): (row: SupplierRow)
    ensures row.name == body.name && row.contactPerson == body.contactPerson && row.email == body.email
    ensures row.phone == body.phone && row.address == body.address
    ensures row.isActive == if body.isActive.None? then Some(true) else body.isActive
    ensures row.createdBy == if body.createdBy.None? then Some(1) else body.createdBy
    ensures row.updatedAt == now
  {
    SupplierRow(body.name, body.contactPerson, body.email, body.phone, body.address,
                if body.isActive.Some? then body.isActive else Some(true),
                if body.createdBy.Some? then body.createdBy else Some(1),
                now)
  }

  /**
   * The row `PUT /suppliers/:id` leaves: name, contact, email, phone, address and `is_active`
   * overwritten by the body (a missing field becomes NULL, there is no default), `updated_at`
   * refreshed, `created_by` kept.
   */
  function UpdatedSupplierRow(row: SupplierRow, body: SupplierBody, now: int): (r: SupplierRow)
    ensures r.name == body.name && r.contactPerson == body.contactPerson && r.email == body.email
    ensures r.phone == body.phone && r.address == body.address && r.isActive == body.isActive
    ensures r.createdBy == row.createdBy && r.updatedAt == now
  {
    row.(name := body.name, contactPerson := body.contactPerson, email := body.email, phone := body.phone,
         address := body.address, isActive := body.isActive, updatedAt := now)
  }

  /** `POST /suppliers`: one query, the insert; the new row takes the next id of the sequence. */
  method CreateSupplier(db: Database, body: SupplierBody, now: int, fault: Fault) returns (status: Status, id: int)
    requires db.Valid()
    modifies db
    ensures db.Valid()
    ensures db.products == old(db.products) && db.movements == old(db.movements)
    ensures db.users == old(db.users) && db.settings == old(db.settings)
    ensures FailsAtQuery(fault, 0) ==>
      status == ServerError500 && db.suppliers == old(db.suppliers) && db.nextSupplierId == old(db.nextSupplierId)
    ensures !FailsAtQuery(fault, 0) ==>
      status == Created201 && id == old(db.nextSupplierId) && id !in old(db.suppliers) &&
      db.suppliers == old(db.suppliers)[id := NewSupplierRow(body, now)] &&
      db.nextSupplierId == old(db.nextSupplierId) + 1
  {
    if FailsAtQuery(fault, 0) {
      return ServerError500, 0;
    }
    id := db.nextSupplierId;
    db.suppliers := db.suppliers[id := NewSupplierRow(body, now)];
    db.nextSupplierId := db.nextSupplierId + 1;
    status := Created201;
  }

  /** `PUT /suppliers/:id`: one query, the update; no row with that id gives 404. */
  method UpdateSupplier(db: Database, id: int, body: SupplierBody, now: int, fault: Fault) returns (status: Status)
    requires db.Valid()
    modifies db
    ensures db.Valid()
    ensures db.products == old(db.products) && db.movements == old(db.movements)
    ensures db.users == old(db.users) && db.settings == old(db.settings)
    ensures db.nextSupplierId == old(db.nextSupplierId)
    ensures FailsAtQuery(fault, 0) ==> status == ServerError500 && db.suppliers == old(db.suppliers)
    ensures !FailsAtQuery(fault, 0) && id !in old(db.suppliers) ==>
      status == NotFound404 && db.suppliers == old(db.suppliers)
    ensures !FailsAtQuery(fault, 0) && id in old(db.suppliers) ==>
      status == Ok200 && db.suppliers == old(db.suppliers)[id := UpdatedSupplierRow(old(db.suppliers)[id], body, now)]
  {
    if FailsAtQuery(fault, 0) {
      return ServerError500;
    }
    if id !in db.suppliers {
      return NotFound404;
    }
    db.suppliers := db.suppliers[id := UpdatedSupplierRow(db.suppliers[id], body, now)];
    status := Ok200;
  }

  /**
   * `DELETE /suppliers/:id`: query 0 counts the products that reference the supplier, query 1
   * deletes. Any referencing product refuses the delete with 400, checked before the id is looked up.
   */
  method DeleteSupplier(db: Database, id: int, fault: Fault) returns (status: Status)
    requires db.Valid()
    modifies db
    ensures db.Valid()
    ensures db.products == old(db.products) && db.movements == old(db.movements)
    ensures db.users == old(db.users) && db.settings == old(db.settings)
    ensures db.nextSupplierId == old(db.nextSupplierId)
    ensures status == BadRequest400 <==>
      !FailsAtQuery(fault, 0) && |ReferencingProducts(old(db.products), id)| > 0
    ensures status == NotFound404 <==>
      !FailsAtQuery(fault, 0) && |ReferencingProducts(old(db.products), id)| == 0 &&
      !FailsAtQuery(fault, 1) && id !in old(db.suppliers)
    ensures status == Ok200 <==>
      !FailsAtQuery(fault, 0) && |ReferencingProducts(old(db.products), id)| == 0 &&
      !FailsAtQuery(fault, 1) && id in old(db.suppliers)
    ensures status == Ok200 ==> db.suppliers == old(db.suppliers) - {id}
    ensures status != Ok200 ==> db.suppliers == old(db.suppliers)
  {
    if FailsAtQuery(fault, 0) {
      return ServerError500;
    }
    if |ReferencingProducts(db.products, id)| > 0 {
      return BadRequest400;
    }
    if FailsAtQuery(fault, 1) {
      return ServerError500;
    }
    if id !in db.suppliers {
      return NotFound404;
    }
    db.suppliers := db.suppliers - {id};
    status := Ok200;
  }
}
