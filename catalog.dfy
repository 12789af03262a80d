/**
 * What the three product pages (the manager's inventory management, the staff's inventory
 * viewer and the admin's product management) share: the product as they hold it, the three
 * stock bands with the two ways the pages draw the "out of stock" line, the category test and
 * the category list built from the products.
 */
module Catalog {
  import opened Common
  import opened Lists
  import opened Text

  /**
   * A product as the pages hold it: the fields their logic reads. `description` and
   * `category_name` can be missing in the server's rows.
   */
  datatype Product = Product(
    id: int,
    name: string,
    sku: string,
    description: Option<string>,
    categoryName: Option<string>,
    stockQuantity: int,
    minStockLevel: int)

  /** The three labels of a `getStockStatus`: Out of Stock, Low Stock, In Stock. */
  datatype StockBand = OutOfStock | LowStock | InStock

  /**
   * `getStockStatus` of the inventory management and product management pages: a stock at or
   * below zero is out, otherwise at or below the minimum level is low.
   */
  function BandOutAtOrBelowZero(p: Product): (b: StockBand)
    ensures b == OutOfStock <==> p.stockQuantity <= 0
    ensures b == LowStock <==> 0 < p.stockQuantity <= p.minStockLevel
    ensures b == InStock <==> 0 < p.stockQuantity && p.minStockLevel < p.stockQuantity
  {
    if p.stockQuantity <= 0 then OutOfStock
    else if p.stockQuantity <= p.minStockLevel then LowStock
    else InStock
  }

  /**
   * `getStockStatus` of the inventory viewer: only a stock of exactly zero is out, so a negative
   * stock is low (or, below a negative minimum, in stock).
   */
  function BandOutAtZero(p: Product): (b: StockBand)
    ensures b == OutOfStock <==> p.stockQuantity == 0
    ensures b == LowStock <==> p.stockQuantity != 0 && p.stockQuantity <= p.minStockLevel
    ensures b == InStock <==> p.stockQuantity != 0 && p.minStockLevel < p.stockQuantity
  {
    if p.stockQuantity == 0 then OutOfStock
    else if p.stockQuantity <= p.minStockLevel then LowStock
    else InStock
  }

  /**
   * The two classifiers agree on every product whose stock is not negative; on a negative stock
   * the first says out of stock and the second never does.
   */
  lemma ClassifiersDifferOnlyBelowZero(p: Product)
    ensures p.stockQuantity >= 0 ==> BandOutAtOrBelowZero(p) == BandOutAtZero(p)
    ensures p.stockQuantity < 0 ==> BandOutAtOrBelowZero(p) == OutOfStock && BandOutAtZero(p) != OutOfStock
  {
  }

  /** The category test of every page: `'all'` or exactly the product's `category_name`. */
  predicate MatchesCategory(p: Product, filter: string) {
    filter == "all" || p.categoryName == Some(filter)
  }

  /** The name-or-SKU search of the inventory management and product management pages. */
  predicate MatchesNameOrSku(p: Product, term: string) {
    MatchesSearch(p.name, term) || MatchesSearch(p.sku, term)
  }

  /** The empty search with category `'all'` lets every product through. */
  lemma EmptySearchAllCategoryMatches(p: Product)
    ensures MatchesNameOrSku(p, "") && MatchesCategory(p, "all")
  {
    EmptyTermMatches(p.name);
  }

  /** Products at two increasing positions name `first` and `second`. */
  ghost predicate NamedBefore(first: string, second: string, products: seq<Product>)
  {
    exists a, b :: 0 <= a < b < |products| &&
      products[a].categoryName == Some(first) && products[b].categoryName == Some(second)
  }

  /** Each pair of positions in `names` is named by two products in the same order. */
  ghost predicate NamedInOrder(names: seq<string>, products: seq<Product>)
  {
    forall i, j :: 0 <= i < j < |names| ==> NamedBefore(names[i], names[j], products)
  }

  /** One more product keeps the order, whether or not its category name is appended. */
  lemma NamedInOrderStep(names: seq<string>, init: seq<Product>, last: Product, added: bool, name: string)
    requires NamedInOrder(names, init)
    requires forall n :: n in names ==> exists i :: 0 <= i < |init| && init[i].categoryName == Some(n)
    requires added ==> last.categoryName == Some(name)
    ensures NamedInOrder(if added then names + [name] else names, init + [last])
  {
    var grown := if added then names + [name] else names;
    var products := init + [last];
    forall i, j | 0 <= i < j < |grown|
      ensures NamedBefore(grown[i], grown[j], products)
    {
      if j < |names| {
        assert grown[i] == names[i] && grown[j] == names[j];
        var a, b :| 0 <= a < b < |init| &&
          init[a].categoryName == Some(names[i]) && init[b].categoryName == Some(names[j]);
        assert products[a] == init[a] && products[b] == init[b];
        assert products[a].categoryName == Some(grown[i]) && products[b].categoryName == Some(grown[j]);
      } else {
        assert grown[i] == names[i] && names[i] in names;
        var a :| 0 <= a < |init| && init[a].categoryName == Some(names[i]);
        var b := |init|;
        assert products[a] == init[a] && products[b] == last;
        assert products[a].categoryName == Some(grown[i]) && products[b].categoryName == Some(grown[j]);
      }
    }
  }

  /**
   * `products.map(p => p.category_name).filter(Boolean)`: the category names that are present and
   * not empty, in the products' order.
   */
  function CategoryNames(products: seq<Product>): (names: seq<string>)
    ensures |names| <= |products|
    ensures forall i :: 0 <= i < |names| ==> names[i] != ""
    ensures forall name :: name in names <==>
              name != "" && exists i :: 0 <= i < |products| && products[i].categoryName == Some(name)
    ensures NamedInOrder(names, products)
  {
    if products == [] then []
    else
      var init := products[..|products| - 1];
      var last := products[|products| - 1];
      assert forall i :: 0 <= i < |init| ==> init[i] == products[i];
      var names := CategoryNames(init);
      var added := last.categoryName.Some? && last.categoryName.value != "";
      assert products == init + [last];
      NamedInOrderStep(names, init, last, added, if last.categoryName.Some? then last.categoryName.value else "");
      if added then names + [last.categoryName.value] else names
  }

  /** `[...new Set(categoryNames)]`: each present, non-empty category name once. */
  function DistinctCategories(products: seq<Product>): (cs: seq<string>)
    ensures NoDuplicates(cs)
    ensures forall name :: name in cs <==>
              name != "" && exists i :: 0 <= i < |products| && products[i].categoryName == Some(name)
  {
    Distinct(CategoryNames(products))
  }

  /** The categories come in the order in which the products first name them. */
  lemma DistinctCategoriesInFirstAppearanceOrder(products: seq<Product>)
    ensures forall i, j :: 0 <= i < j < |DistinctCategories(products)| ==>
              FirstIndex(CategoryNames(products), DistinctCategories(products)[i]) <
              FirstIndex(CategoryNames(products), DistinctCategories(products)[j])
  {
    DistinctKeepsFirstOccurrenceOrder(CategoryNames(products));
  }

  /**
   * The category drop-down of the inventory management and product management pages: `'all'`
   * first, then the distinct categories.
   */
  function CategoryOptions(products: seq<Product>): (options: seq<string>)
    ensures |options| == 1 + |DistinctCategories(products)|
    ensures options[0] == "all" && options[1..] == DistinctCategories(products)
    ensures forall name :: name in options[1..] <==>
              name != "" && exists i :: 0 <= i < |products| && products[i].categoryName == Some(name)
  {
    ["all"] + DistinctCategories(products)
  }
}
