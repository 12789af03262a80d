/** The admin's product management page: the product list with its search and category filter. */
module ProductManagement {
  import opened Common
  import opened Lists
  import opened Catalog

  /** `filteredProducts`: name-or-SKU search and the category test, no stock filter. */
  function FilteredProducts(products: seq<Product>, searchTerm: string, category: string): (r: seq<Product>)
    ensures IsSubsequence(r, products)
    ensures forall p :: p in r <==> p in products && MatchesNameOrSku(p, searchTerm) && MatchesCategory(p, category)
  {
    Filter(products, p => MatchesNameOrSku(p, searchTerm) && MatchesCategory(p, category))
  }

  /** An empty search with category `'all'` shows the whole list, in order. */
  lemma EmptySearchShowsAll(products: seq<Product>)
    ensures FilteredProducts(products, "", "all") == products
  {
    forall i | 0 <= i < |products|
      ensures MatchesNameOrSku(products[i], "")
    {
      EmptySearchAllCategoryMatches(products[i]);
    }
    FilterKeepsAll(products, p => MatchesNameOrSku(p, "") && MatchesCategory(p, "all"));
  }

  /** A named category shows exactly the listed products carrying that `category_name`. */
  lemma CategoryIsExactMatch(products: seq<Product>, category: string, p: Product)
    requires category != "all"
    ensures p in FilteredProducts(products, "", category) <==> p in products && p.categoryName == Some(category)
  {
    EmptySearchAllCategoryMatches(p);
  }

  /** Narrowing the search to a category never shows more products. */
  lemma CategoryNarrows(products: seq<Product>, searchTerm: string, category: string)
    ensures |FilteredProducts(products, searchTerm, category)| <= |FilteredProducts(products, searchTerm, "all")|
  {
    CountSplit(products, p => MatchesNameOrSku(p, searchTerm) && MatchesCategory(p, "all"),
               p => MatchesNameOrSku(p, searchTerm) && MatchesCategory(p, category),
               p => MatchesNameOrSku(p, searchTerm) && MatchesCategory(p, "all") && !MatchesCategory(p, category));
  }
}
