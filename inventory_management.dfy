/**
 * The manager's inventory management page: the product list with its search, category and
 * stock filters, and the stock adjustment dialog, which changes the page's copy of the products
 * and nothing on the server.
 */
module InventoryManagement {
  import opened Common
  import opened Lists
  import opened Catalog

  /**
   * The stock filter: `'low'` keeps stock at or below the minimum (so out-of-stock products
   * too), `'out'` keeps a stock of exactly zero, any other value keeps everything.
   */
  predicate MatchesStock(p: Product, filter: string) {
    if filter == "low" then p.stockQuantity <= p.minStockLevel
    else if filter == "out" then p.stockQuantity == 0
    else true
  }

  /** `filteredProducts`: the products passing the search, the category and the stock filter, in list order. */
  function FilteredProducts(products: seq<Product>, searchTerm: string, category: string, stock: string)
    : (r: seq<Product>)
    ensures IsSubsequence(r, products)
    ensures forall p :: p in r <==>
              p in products && MatchesNameOrSku(p, searchTerm) && MatchesCategory(p, category) && MatchesStock(p, stock)
  {
    Filter(products, p => MatchesNameOrSku(p, searchTerm) && MatchesCategory(p, category) && MatchesStock(p, stock))
  }

  /** With an empty search, category `'all'` and a stock filter other than low or out, nothing is hidden. */
  lemma NoFilterKeepsAll(products: seq<Product>, stock: string)
    requires stock != "low" && stock != "out"
    ensures FilteredProducts(products, "", "all", stock) == products
  {
    forall i | 0 <= i < |products|
      ensures MatchesNameOrSku(products[i], "")
    {
      EmptySearchAllCategoryMatches(products[i]);
    }
    FilterKeepsAll(products, p => MatchesNameOrSku(p, "") && MatchesCategory(p, "all") && MatchesStock(p, stock));
  }

  /** Every product the `'out'` filter shows, the `'low'` filter shows too, when its minimum is not negative. */
  lemma OutShownAsLow(products: seq<Product>, searchTerm: string, category: string, p: Product)
    requires p in FilteredProducts(products, searchTerm, category, "out") && p.minStockLevel >= 0
    ensures p in FilteredProducts(products, searchTerm, category, "low")
  {
  }

  /** The adjustment dialog's form. */
  datatype AdjustmentForm = AdjustmentForm(quantity: int, kind: string, reason: string)

  /** The stock an adjustment proposes: `'add'` adds the quantity, any other type subtracts it. */
  function ProposedStock(kind: string, current: int, quantity: int): (n: int)
    ensures kind == "add" ==> n - current == quantity
    ensures kind != "add" ==> current - n == quantity
  {
    if kind == "add" then current + quantity else current - quantity
  }

  /** Removing what was added restores a stock that was not negative. */
  lemma RemoveUndoesAdd(current: int, quantity: int, kind: string)
    requires current >= 0 && quantity >= 0 && kind != "add"
    ensures ClampAtZero(ProposedStock(kind, ClampAtZero(ProposedStock("add", current, quantity)), quantity)) == current
  {
  }

  /** `prev.map(p => p.id === id ? { ...p, stock_quantity: stock } : p)`. */
  function WithStock(products: seq<Product>, id: int, stock: int): (r: seq<Product>)
    ensures |r| == |products|
    ensures forall i :: 0 <= i < |products| && products[i].id == id ==> r[i] == products[i].(stockQuantity := stock)
    ensures forall i :: 0 <= i < |products| && products[i].id != id ==> r[i] == products[i]
  {
    seq(|products|, i requires 0 <= i < |products| =>
      if products[i].id == id then products[i].(stockQuantity := stock) else products[i])
  }

  /** The page's state that its handlers change. */
  class InventoryManagementPage {
    var products: seq<Product>
    var selectedProduct: Option<Product>
    var adjustment: AdjustmentForm
    var showStockModal: bool

    constructor (products: seq<Product>)
      ensures this.products == products && selectedProduct.None?
      ensures adjustment == AdjustmentForm(0, "add", "") && !showStockModal
    {
      this.products := products;
      selectedProduct := None;
      adjustment := AdjustmentForm(0, "add", "");
      showStockModal := false;
    }

    /** `openStockAdjustment`: select the product, reset the form to 0 / add / no reason, show the dialog. */
    method OpenStockAdjustment(product: Product)
      modifies this
      ensures selectedProduct == Some(product) && showStockModal
      ensures adjustment == AdjustmentForm(0, "add", "")
      ensures products == old(products)
    {
      selectedProduct := Some(product);
      adjustment := AdjustmentForm(0, "add", "");
      showStockModal := true;
    }

    /**
     * `handleStockAdjustment`: without a selected product, nothing happens. Otherwise the new
     * stock is computed from the selected product's stock as it was when the dialog opened,
     * clamped at 0, and written into every product with that id; then the dialog closes and the
     * selection clears.
     */
    method HandleStockAdjustment()
      modifies this
      ensures old(selectedProduct).None? ==>
        products == old(products) && selectedProduct == old(selectedProduct) && showStockModal == old(showStockModal)
      ensures old(selectedProduct).Some? ==>
        var sel := old(selectedProduct).value;
        products == WithStock(old(products), sel.id,
                              ClampAtZero(ProposedStock(old(adjustment).kind, sel.stockQuantity, old(adjustment).quantity))) &&
        selectedProduct.None? && !showStockModal
      ensures adjustment == old(adjustment)
      ensures forall i :: 0 <= i < |products| && old(selectedProduct).Some? && products[i].id == old(selectedProduct).value.id ==>
                products[i].stockQuantity >= 0
    {
      if selectedProduct.None? {
        return;
      }
      var sel := selectedProduct.value;
      var newQuantity := ProposedStock(adjustment.kind, sel.stockQuantity, adjustment.quantity);
      products := WithStock(products, sel.id, ClampAtZero(newQuantity));
      showStockModal := false;
      selectedProduct := None;
    }
  }
}
