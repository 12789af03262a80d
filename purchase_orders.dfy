/**
 * The manager's purchase orders page: the order list with its search and status filter, and the
 * approve and reject handlers, which change the page's copy of one order's status.
 */
module PurchaseOrders {
  import opened Common
  import opened Lists
  import opened Text

  datatype OrderStatus = Pending | Approved | Rejected | Completed

  function StatusName(s: OrderStatus): (n: string)
    ensures |n| > 0
  {
    match s
    case Pending => "pending"
    case Approved => "approved"
    case Rejected => "rejected"
    case Completed => "completed"
  }

  /** No two statuses share a name, so the status filter on a name selects one status. */
  lemma StatusNamesDistinct(s: OrderStatus, t: OrderStatus)
    ensures StatusName(s) == StatusName(t) ==> s == t
  {
  }

  /** An order as the page holds it; the line items and amounts are not modelled. */
  datatype PurchaseOrder = PurchaseOrder(
    id: int,
    poNumber: string,
    supplierId: int,
    supplierName: string,
    status: OrderStatus,
    orderDate: string,
    expectedDelivery: string,
    createdBy: string)

  /** `prev.map(o => o.id === id ? { ...o, status } : o)`: every order with that id takes the status. */
  function WithStatus(orders: seq<PurchaseOrder>, id: int, status: OrderStatus): (r: seq<PurchaseOrder>)
    ensures |r| == |orders|
    ensures forall i :: 0 <= i < |orders| && orders[i].id == id ==> r[i] == orders[i].(status := status)
    ensures forall i :: 0 <= i < |orders| && orders[i].id != id ==> r[i] == orders[i]
  {
    seq(|orders|, i requires 0 <= i < |orders| => if orders[i].id == id then orders[i].(status := status) else orders[i])
  }

  /** Approving or rejecting never makes an order completed that was not completed before. */
  lemma DecisionNeverCompletes(orders: seq<PurchaseOrder>, id: int, status: OrderStatus)
    requires status == Approved || status == Rejected
    ensures forall i :: 0 <= i < |orders| && WithStatus(orders, id, status)[i].status == Completed ==>
              orders[i].status == Completed && orders[i].id != id
  {
  }

  /** The Approve and Reject buttons are rendered only for a pending order. */
  predicate ShowsDecisionButtons(o: PurchaseOrder) {
    o.status == Pending
  }

  /** After a decision no order with that id offers the buttons; the other orders keep theirs. */
  lemma DecisionHidesButtons(orders: seq<PurchaseOrder>, id: int, status: OrderStatus)
    requires status != Pending
    ensures forall i :: 0 <= i < |orders| && orders[i].id == id ==> !ShowsDecisionButtons(WithStatus(orders, id, status)[i])
    ensures forall i :: 0 <= i < |orders| && orders[i].id != id ==>
              ShowsDecisionButtons(WithStatus(orders, id, status)[i]) == ShowsDecisionButtons(orders[i])
  {
  }

  /** `filteredOrders`: search over PO number or supplier name, status `'all'` or exact. */
  predicate Shown(o: PurchaseOrder, searchTerm: string, filterStatus: string) {
    (MatchesSearch(o.poNumber, searchTerm) || MatchesSearch(o.supplierName, searchTerm)) &&
    (filterStatus == "all" || StatusName(o.status) == filterStatus)
  }

  function FilteredOrders(orders: seq<PurchaseOrder>, searchTerm: string, filterStatus: string): (r: seq<PurchaseOrder>)
    ensures IsSubsequence(r, orders)
    ensures forall o :: o in r <==> o in orders && Shown(o, searchTerm, filterStatus)
  {
    Filter(orders, o => Shown(o, searchTerm, filterStatus))
  }

  /** With no search, a status name keeps exactly the orders in that status. */
  lemma StatusFilterIsExact(orders: seq<PurchaseOrder>, s: OrderStatus, o: PurchaseOrder)
    ensures o in FilteredOrders(orders, "", StatusName(s)) <==> o in orders && o.status == s
  {
    EmptyTermMatches(o.poNumber);
    StatusNamesDistinct(o.status, s);
  }

  /** With no search and status `'all'`, every order is listed, in order. */
  lemma NoFilterListsAll(orders: seq<PurchaseOrder>)
    ensures FilteredOrders(orders, "", "all") == orders
  {
    forall i | 0 <= i < |orders|
      ensures Shown(orders[i], "", "all")
    {
      EmptyTermMatches(orders[i].poNumber);
    }
    FilterKeepsAll(orders, o => Shown(o, "", "all"));
  }

  /** The page's order list. */
  class PurchaseOrdersPage {
    var orders: seq<PurchaseOrder>

    constructor (orders: seq<PurchaseOrder>)
      ensures this.orders == orders
    {
      this.orders := orders;
    }

    /** `handleApproveOrder`: no check of the current status. */
    method ApproveOrder(orderId: int)
      modifies this
      ensures orders == WithStatus(old(orders), orderId, Approved)
    {
      orders := WithStatus(orders, orderId, Approved);
    }

    /**
     * `handleRejectOrder`: `reason` is what `prompt` returned (`None` when cancelled); only a
     * non-empty reason rejects, and the reason is not kept.
     */
    method RejectOrder(orderId: int, reason: Option<string>)
      modifies this
      ensures reason.Some? && reason.value != "" ==> orders == WithStatus(old(orders), orderId, Rejected)
      ensures !(reason.Some? && reason.value != "") ==> orders == old(orders)
    {
      if reason.Some? && reason.value != "" {
        orders := WithStatus(orders, orderId, Rejected);
      }
    }
  }
}
