/**
 * The staff's read-only inventory viewer: search over name, SKU and description, the category
 * and stock filters, the four stat cards and the distinct categories of the loaded products.
 */
module InventoryViewer {
  import opened Common
  import opened Lists
  import opened Text
  import opened Catalog

  /** Name, SKU or description; a product without a description never matches on it. */
  predicate MatchesText(p: Product, term: string) {
    MatchesSearch(p.name, term) || MatchesSearch(p.sku, term) || MatchesOptional(p.description, term)
  }

  /**
   * The stock filter: `'low'` keeps stock at or below the minimum, `'out'` a stock of exactly
   * zero, `'normal'` stock above the minimum, and any other value everything.
   */
  predicate MatchesStock(p: Product, filter: string) {
    if filter == "low" then p.stockQuantity <= p.minStockLevel
    else if filter == "out" then p.stockQuantity == 0
    else if filter == "normal" then p.stockQuantity > p.minStockLevel
    else true
  }

  /** `filteredProducts`: an order-preserving selection of the products passing all three tests. */
  function FilteredProducts(products: seq<Product>, searchTerm: string, category: string, stock: string)
    : (r: seq<Product>)
    ensures IsSubsequence(r, products)
    ensures forall p :: p in r <==>
              p in products && MatchesText(p, searchTerm) && MatchesCategory(p, category) && MatchesStock(p, stock)
  {
    Filter(products, p => MatchesText(p, searchTerm) && MatchesCategory(p, category) && MatchesStock(p, stock))
  }

  /** With the same search and category, every shown product is in exactly one of `'low'` and `'normal'`. */
  lemma LowAndNormalPartition(products: seq<Product>, searchTerm: string, category: string)
    ensures |FilteredProducts(products, searchTerm, category, "low")| +
            |FilteredProducts(products, searchTerm, category, "normal")| ==
            |FilteredProducts(products, searchTerm, category, "all")|
  {
    CountSplit(products, p => MatchesText(p, searchTerm) && MatchesCategory(p, category) && MatchesStock(p, "all"),
               p => MatchesText(p, searchTerm) && MatchesCategory(p, category) && MatchesStock(p, "low"),
               p => MatchesText(p, searchTerm) && MatchesCategory(p, category) && MatchesStock(p, "normal"));
  }

  /** `'out'` keeps exactly the products of the unfiltered view whose stock is zero. */
  lemma OutKeepsZeroStock(products: seq<Product>, searchTerm: string, category: string, p: Product)
    ensures p in FilteredProducts(products, searchTerm, category, "out") <==>
            p in FilteredProducts(products, searchTerm, category, "all") && p.stockQuantity == 0
  {
  }

  /** The filters Clear Filters sets: empty search, both drop-downs on `'all'`. */
  datatype Filters = Filters(searchTerm: string, category: string, stock: string)

  function ClearedFilters(): (f: Filters)
    ensures f.searchTerm == "" && f.category == "all" && f.stock == "all"
  {
    Filters("", "all", "all")
  }

  /** After Clear Filters the page shows every loaded product, in order. */
  lemma ClearedFiltersShowAll(products: seq<Product>)
    ensures var f := ClearedFilters(); FilteredProducts(products, f.searchTerm, f.category, f.stock) == products
  {
    forall i | 0 <= i < |products|
      ensures MatchesText(products[i], "")
    {
      EmptyTermMatches(products[i].name);
    }
    FilterKeepsAll(products, p => MatchesText(p, "") && MatchesCategory(p, "all") && MatchesStock(p, "all"));
  }

  /** The In Stock card counts stock above the minimum. */
  predicate InStockCard(p: Product) {
    p.stockQuantity > p.minStockLevel
  }

  /** The Low Stock card counts stock at or below the minimum, but above zero. */
  predicate LowStockCard(p: Product) {
    p.stockQuantity <= p.minStockLevel && p.stockQuantity > 0
  }

  /** The Out of Stock card counts a stock of exactly zero. */
  predicate OutOfStockCard(p: Product) {
    p.stockQuantity == 0
  }

  /** With no negative stock or minimum, the three cards add up to the Total Products card. */
  lemma StatCardsAddUp(products: seq<Product>)
    requires forall i :: 0 <= i < |products| ==> products[i].stockQuantity >= 0 && products[i].minStockLevel >= 0
    ensures Count(products, InStockCard) + Count(products, LowStockCard) + Count(products, OutOfStockCard) == |products|
  {
    CountPartition3(products, InStockCard, LowStockCard, OutOfStockCard);
  }

  /** A negative minimum level breaks the sum: a product at zero stock is counted on two cards. */
  lemma StatCardsOvercount()
    ensures var ps := [Product(1, "Cable", "C-1", None, None, 0, -1)];
            Count(ps, InStockCard) + Count(ps, LowStockCard) + Count(ps, OutOfStockCard) == 2
  {
    var ps := [Product(1, "Cable", "C-1", None, None, 0, -1)];
    assert ps == [] + [ps[0]];
    FilterAppend([], ps[0], InStockCard);
    FilterAppend([], ps[0], LowStockCard);
    FilterAppend([], ps[0], OutOfStockCard);
  }

  /** The viewer's band on each product agrees with the card that counts it, for non-negative values. */
  lemma BandMatchesCards(p: Product)
    requires p.stockQuantity >= 0 && p.minStockLevel >= 0
    ensures BandOutAtZero(p) == InStock <==> InStockCard(p)
    ensures BandOutAtZero(p) == LowStock <==> LowStockCard(p)
    ensures BandOutAtZero(p) == OutOfStock <==> OutOfStockCard(p)
  {
  }
}
