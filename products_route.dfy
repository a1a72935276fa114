/**
 * `GET /api/products` and `GET /api/products/:category`: the catalog, and the products whose
 * category equals the parameter ignoring ASCII case. A catalog that could not be loaded is empty.
 */
module ProductsRoute {
  import opened Strings
  import opened Catalog
  import Arrays

  /** `p.category.toLowerCase() === category.toLowerCase()`. */
  predicate InCategory(p: Product, category: string) {
    Lower(p.category) == Lower(category)
  }

  /** `GET /api/products`: the loaded catalog as it is, every product in catalog order. */
  function ListProducts(products: seq<Product>): (r: seq<Product>)
    ensures r == products
  {
    products
  }

  /** `GET /api/products/:category`: exactly the products of that category, each as many
      times as the catalog holds it, in catalog order. */
  function FilterByCategory(products: seq<Product>, category: string): (r: seq<Product>)
    ensures forall k :: 0 <= k < |r| ==> InCategory(r[k], category) && r[k] in products
    ensures forall p :: p in products && InCategory(p, category) ==> p in r
    ensures forall p :: multiset(r)[p] == if InCategory(p, category) then multiset(products)[p] else 0
    ensures Arrays.IsSubsequence(r, products)
  {
    var wanted := Lower(category);
    var r := Arrays.Filter(products, (p: Product) => Lower(p.category) == wanted);
    Arrays.FilterCounts(products, (p: Product) => Lower(p.category) == wanted);
    Arrays.FilterIsSubsequence(products, (p: Product) => Lower(p.category) == wanted);
    assert forall p :: p in products ==> multiset(products)[p] > 0;
    r
  }

  /** The category parameter's case does not matter. */
  lemma FilterIgnoresCase(products: seq<Product>, category: string)
    ensures FilterByCategory(products, Upper(category)) == FilterByCategory(products, category)
    ensures FilterByCategory(products, Lower(category)) == FilterByCategory(products, category)
  {
    LowerOfUpper(category);
    LowerIdempotent(category);
  }

  /** The filtered products are a selection from the list endpoint's, in its order. */
  lemma FilteredAreListed(products: seq<Product>, category: string)
    ensures Arrays.IsSubsequence(FilterByCategory(products, category), ListProducts(products))
    ensures |FilterByCategory(products, category)| <= |ListProducts(products)|
  {
    Arrays.SubsequenceShorter(FilterByCategory(products, category), products);
  }

  /** With the catalog unreadable, every category is empty. */
  lemma LoadFailureEmpty(category: string)
    ensures FilterByCategory([], category) == []
  {
  }
}
