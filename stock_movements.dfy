/**
 * The manager's stock movements page. A submitted movement is only a pending record placed at
 * the front of the page's list; approving or rejecting stamps the decision on the record. No
 * handler touches any product's stock.
 */
module StockMovements {
  import opened Common
  import opened Lists
  import opened Text

  datatype MovementType = In | Out | Adjustment | Transfer

  datatype MovementStatus = Pending | Approved | Rejected

  function TypeName(t: MovementType): (s: string)
    ensures |s| > 0
  {
    match t
    case In => "in"
    case Out => "out"
    case Adjustment => "adjustment"
    case Transfer => "transfer"
  }

  function StatusName(s: MovementStatus): (n: string)
    ensures |n| > 0
  {
    match s
    case Pending => "pending"
    case Approved => "approved"
    case Rejected => "rejected"
  }

  /** The type and status names are told apart by the filters: no two share a name. */
  lemma NamesAreDistinct(t: MovementType, u: MovementType, s: MovementStatus, v: MovementStatus)
    ensures TypeName(t) == TypeName(u) ==> t == u
    ensures StatusName(s) == StatusName(v) ==> s == v
  {
  }

  /** A record of the page's list; timestamps are opaque strings. */
  datatype Movement = Movement(
    id: int,
    productId: int,
    productName: string,
    sku: string,
    movementType: MovementType,
    quantity: int,
    previousQuantity: int,
    newQuantity: int,
    reason: string,
    referenceNumber: string,
    createdBy: string,
    createdAt: string,
    status: MovementStatus,
    approvedBy: Option<string>,
    approvedAt: Option<string>,
    locationFrom: string,
    locationTo: string)

  /** A product of the page's product list. */
  datatype StockProduct = StockProduct(id: int, name: string, sku: string, currentStock: int, minStockLevel: int)

  /** The new-movement form. */
  datatype MovementForm = MovementForm(
    productId: int,
    movementType: MovementType,
    quantity: int,
    reason: string,
    referenceNumber: string,
    locationFrom: string,
    locationTo: string)

  /** The form's initial and reset value. */
  function EmptyForm(): (f: MovementForm)
    ensures f.productId == 0 && f.movementType == Adjustment && f.quantity == 0
    ensures f.reason == "" && f.referenceNumber == "" && f.locationFrom == "" && f.locationTo == ""
  {
    MovementForm(0, Adjustment, 0, "", "", "", "")
  }

  /** `products.find(p => p.id === id)`. */
  function FindProduct(products: seq<StockProduct>, id: int): (r: Option<StockProduct>)
    ensures r.None? <==> forall i :: 0 <= i < |products| ==> products[i].id != id
    ensures r.Some? ==> r.value.id == id
    ensures r.Some? ==>
              exists k :: 0 <= k < |products| && products[k] == r.value && forall j :: 0 <= j < k ==> products[j].id != id
  {
    Find(products, (p: StockProduct) => p.id == id)
  }

  /**
   * The quantity an accepted movement would leave: `in` and `adjustment` add the (signed)
   * quantity, `out` and `transfer` subtract it.
   */
  function ProposedQuantity(t: MovementType, current: int, quantity: int): (n: int)
    ensures t == In || t == Adjustment ==> n == current + quantity
    ensures t == Out || t == Transfer ==> n == current - quantity
  {
    match t
    case In => current + quantity
    case Adjustment => current + quantity
    case Out => current - quantity
    case Transfer => current - quantity
  }

  /**
   * `prev.map(m => m.id === id ? { ...m, status, approved_by: who, approved_at: at } : m)`: every
   * record with that id takes the decision, whatever its status was; the others are untouched.
   */
  function Stamped(ms: seq<Movement>, id: int, status: MovementStatus, who: string, at: string): (r: seq<Movement>)
    ensures |r| == |ms|
    ensures forall i :: 0 <= i < |ms| && ms[i].id == id ==>
              r[i] == ms[i].(status := status, approvedBy := Some(who), approvedAt := Some(at))
    ensures forall i :: 0 <= i < |ms| && ms[i].id != id ==> r[i] == ms[i]
  {
    seq(|ms|, i requires 0 <= i < |ms| =>
      if ms[i].id == id then ms[i].(status := status, approvedBy := Some(who), approvedAt := Some(at)) else ms[i])
  }

  /** A later decision on the same id replaces an earlier one entirely. */
  lemma LaterDecisionWins(ms: seq<Movement>, id: int, s1: MovementStatus, s2: MovementStatus,
                          who: string, at1: string, at2: string)
    ensures Stamped(Stamped(ms, id, s1, who, at1), id, s2, who, at2) == Stamped(ms, id, s2, who, at2)
  {
  }

  /** The Approve and Reject buttons are rendered only for a pending record. */
  predicate ShowsDecisionButtons(m: Movement) {
    m.status == Pending
  }

  /** After a decision, none of the records with that id offers the buttons again. */
  lemma DecisionHidesButtons(ms: seq<Movement>, id: int, s: MovementStatus, who: string, at: string)
    requires s != Pending
    ensures forall i :: 0 <= i < |ms| && ms[i].id == id ==> !ShowsDecisionButtons(Stamped(ms, id, s, who, at)[i])
    ensures forall i :: 0 <= i < |ms| && ms[i].id != id ==>
              ShowsDecisionButtons(Stamped(ms, id, s, who, at)[i]) == ShowsDecisionButtons(ms[i])
  {
  }

  /** `filteredMovements`: search over product name, SKU and creator; type and status `'all'` or exact. */
  predicate Shown(m: Movement, searchTerm: string, filterType: string, filterStatus: string) {
    (MatchesSearch(m.productName, searchTerm) || MatchesSearch(m.sku, searchTerm) ||
     MatchesSearch(m.createdBy, searchTerm)) &&
    (filterType == "all" || TypeName(m.movementType) == filterType) &&
    (filterStatus == "all" || StatusName(m.status) == filterStatus)
  }

  function FilteredMovements(ms: seq<Movement>, searchTerm: string, filterType: string, filterStatus: string)
    : (r: seq<Movement>)
    ensures IsSubsequence(r, ms)
    ensures forall m :: m in r <==> m in ms && Shown(m, searchTerm, filterType, filterStatus)
  {
    Filter(ms, m => Shown(m, searchTerm, filterType, filterStatus))
  }

  /** The status filter on a name keeps exactly the records in that status (the search and type aside). */
  lemma StatusFilterIsExact(ms: seq<Movement>, s: MovementStatus, m: Movement)
    ensures m in FilteredMovements(ms, "", "all", StatusName(s)) <==> m in ms && m.status == s
  {
    EmptyTermMatches(m.productName);
    NamesAreDistinct(In, In, m.status, s);
  }

  /** With no search and both filters on `'all'`, every record is listed, in order. */
  lemma NoFilterListsAll(ms: seq<Movement>)
    ensures FilteredMovements(ms, "", "all", "all") == ms
  {
    forall i | 0 <= i < |ms|
      ensures Shown(ms[i], "", "all", "all")
    {
      EmptyTermMatches(ms[i].productName);
    }
    FilterKeepsAll(ms, m => Shown(m, "", "all", "all"));
  }

  /** The page's state that its handlers change. */
  class StockMovementsPage {
    var movements: seq<Movement>
    var products: seq<StockProduct>
    var form: MovementForm
    var showMovementModal: bool

    constructor (movements: seq<Movement>, products: seq<StockProduct>)
      ensures this.movements == movements && this.products == products
      ensures form == EmptyForm() && !showMovementModal
    {
      this.movements := movements;
      this.products := products;
      form := EmptyForm();
      showMovementModal := false;
    }

    /** `handleApproveMovement`: stamp `approved`, by the current manager, now. */
    method ApproveMovement(movementId: int, now: string)
      modifies this
      ensures movements == Stamped(old(movements), movementId, Approved, "Current Manager", now)
      ensures products == old(products) && form == old(form) && showMovementModal == old(showMovementModal)
    {
      movements := Stamped(movements, movementId, Approved, "Current Manager", now);
    }

    /**
     * `handleRejectMovement`: `reason` is what `prompt` returned (`None` when cancelled). Only a
     * non-empty reason stamps `rejected`; the reason itself is not kept.
     */
    method RejectMovement(movementId: int, reason: Option<string>, now: string)
      modifies this
      ensures reason.Some? && reason.value != "" ==>
        movements == Stamped(old(movements), movementId, Rejected, "Current Manager", now)
      ensures !(reason.Some? && reason.value != "") ==> movements == old(movements)
      ensures products == old(products) && form == old(form) && showMovementModal == old(showMovementModal)
    {
      if reason.Some? && reason.value != "" {
        movements := Stamped(movements, movementId, Rejected, "Current Manager", now);
      }
    }

    /**
     * `handleSubmit`: for a product id not in the list nothing happens. Otherwise a pending
     * record with id `movements.length + 1` (not necessarily unused) goes to the front of the
     * list, the dialog closes and the form resets. The proposed quantity is clamped at 0 and
     * the product list is left as it was.
     */
    method HandleSubmit(now: string)
      modifies this
      ensures products == old(products)
      ensures FindProduct(old(products), old(form).productId).None? ==>
        movements == old(movements) && form == old(form) && showMovementModal == old(showMovementModal)
      ensures FindProduct(old(products), old(form).productId).Some? ==>
        var p := FindProduct(old(products), old(form).productId).value;
        |movements| == |old(movements)| + 1 && movements[1..] == old(movements) &&
        var m := movements[0];
        m.id == |old(movements)| + 1 && m.productId == old(form).productId &&
        m.productName == p.name && m.sku == p.sku && m.movementType == old(form).movementType &&
        m.quantity == Abs(old(form).quantity) && m.previousQuantity == p.currentStock &&
        m.newQuantity == ClampAtZero(ProposedQuantity(old(form).movementType, p.currentStock, old(form).quantity)) &&
        m.reason == old(form).reason && m.referenceNumber == old(form).referenceNumber &&
        m.createdBy == "Current Manager" && m.createdAt == now && m.status == Pending &&
        m.approvedBy.None? && m.approvedAt.None? &&
        m.locationFrom == old(form).locationFrom && m.locationTo == old(form).locationTo &&
        form == EmptyForm() && !showMovementModal
    {
      var found := FindProduct(products, form.productId);
      if found.None? {
        return;
      }
      var selected := found.value;
      var newQuantity := selected.currentStock;
      var quantity := form.quantity;
      if form.movementType == In {
        newQuantity := newQuantity + quantity;
      } else if form.movementType == Out || form.movementType == Transfer {
        newQuantity := newQuantity - quantity;
      } else {
        newQuantity := newQuantity + quantity;
      }
      var m := Movement(|movements| + 1, form.productId, selected.name, selected.sku, form.movementType,
                        Abs(quantity), selected.currentStock, ClampAtZero(newQuantity), form.reason,
                        form.referenceNumber, "Current Manager", now, Pending, None, None,
                        form.locationFrom, form.locationTo);
      movements := [m] + movements;
      showMovementModal := false;
      form := EmptyForm();
    }
  }
}
