/**
 * The selection rules of the front end's featured-products grid: which products are shown,
 * which of their tags, and which description and image each card uses.
 */
module FeaturedProducts {
  import opened Optional
  import opened Strings
  import opened Catalog
  import Arrays

  const FEATURED_COUNT: nat := 6
  const SHOWN_TAG_COUNT: nat := 3
  const DEFAULT_DESCRIPTION := "Premium quality product"
  const PLACEHOLDER_PREFIX := "https://via.placeholder.com/300x300?text="

  /** `/^https?:\/\//i`. Without the `u` flag the regular expression folds case only within
      ASCII, so ASCII lower-casing decides it exactly. */
  predicate IsHttpUrl(s: string) {
    StartsWith(Lower(s), "http://") || StartsWith(Lower(s), "https://")
  }

  /** `s.replace(/^\//, '')`: one leading slash removed, if there is one. */
  function StripLeadingSlash(s: string): (r: string)
    ensures |r| <= |s| <= |r| + 1 && r == s[|s| - |r|..]
    ensures r != s <==> StartsWith(s, "/")
  {
    if s != [] && s[0] == '/' then s[1..] else s
  }

  /** `resolveImage`: nothing for a missing or empty image; an absolute http(s) URL trimmed;
      anything else trimmed and made root-relative with exactly the one slash it needs. */
  function ResolveImage(image: Option<string>): (r: Option<string>)
    ensures r.None? <==> image.None? || image.value == ""
    ensures r.Some? ==> r.value != "" && IsTrimmed(r.value)
    ensures r.Some? && IsHttpUrl(Trim(image.value)) ==> r.value == Trim(image.value)
    ensures r.Some? && !IsHttpUrl(Trim(image.value)) ==>
              && r.value[0] == '/'
              && r.value[1..] == StripLeadingSlash(Trim(image.value))
  {
    match image
    case None => None
    case Some(raw) =>
      if raw == "" then None
      else
        var trimmed := Trim(raw);
        if IsHttpUrl(trimmed) then
          assert trimmed != [] by { assert |Lower(trimmed)| == |trimmed|; }
          Some(trimmed)
        else
          RootedPathIsTrimmed(trimmed);
          Some("/" + StripLeadingSlash(trimmed))
  }

  /** Rooting a trimmed path gives a trimmed path. */
  lemma RootedPathIsTrimmed(t: string)
    requires IsTrimmed(t)
    ensures var r := "/" + StripLeadingSlash(t);
            r[0] == '/' && r[1..] == StripLeadingSlash(t) && IsTrimmed(r)
  {
    var rest := StripLeadingSlash(t);
    var r := "/" + rest;
    assert rest == [] || r[|r| - 1] == rest[|rest| - 1] == t[|t| - 1];
  }

  /** A resolved image resolves to itself: `resolveImage` is idempotent. */
  lemma ResolveImageIdempotent(image: Option<string>)
    requires ResolveImage(image).Some?
    ensures ResolveImage(ResolveImage(image)).Some?
    ensures ResolveImage(ResolveImage(image)) == ResolveImage(image)
  {
    var r := ResolveImage(image).value;
    TrimOfTrimmed(r);
    assert Trim(r) == r;
    if IsHttpUrl(Trim(image.value)) {
      assert IsHttpUrl(r);
    } else {
      RootPathIsNotHttp(r);
      assert StripLeadingSlash(r) == r[1..];
      assert ResolveImage(Some(r)) == Some("/" + r[1..]);
      assert "/" + r[1..] == r;
    }
  }

  /** A path starting with `/` is never taken for an http(s) URL. */
  lemma RootPathIsNotHttp(s: string)
    requires s != [] && s[0] == '/'
    ensures !IsHttpUrl(s)
  {
    assert Lower(s)[0] == '/';
  }

  /** The card image: the resolved image, or a placeholder carrying the product name, encoded
      by `encode` (`encodeURIComponent`). */
  function ImageSource(p: Product, encode: string -> string): (src: string)
    ensures src != ""
    ensures ResolveImage(p.image).Some? ==> src == ResolveImage(p.image).value
    ensures ResolveImage(p.image).None? ==> src == PLACEHOLDER_PREFIX + encode(p.name)
  {
    match ResolveImage(p.image)
    case Some(resolved) => resolved
    case None => PLACEHOLDER_PREFIX + encode(p.name)
  }

  /** `product.description || 'Premium quality product'`. */
  function Description(p: Product): (d: string)
    ensures d != ""
    ensures p.description.Some? && p.description.value != "" ==> d == p.description.value
    ensures p.description.None? || p.description.value == "" ==> d == DEFAULT_DESCRIPTION
  {
    match p.description
    case Some(text) => if text != "" then text else DEFAULT_DESCRIPTION
    case None => DEFAULT_DESCRIPTION
  }

  /** `products.slice(0, 6)`: the first six products, in order. */
  function Featured(products: seq<Product>): (r: seq<Product>)
    ensures |r| == if |products| < FEATURED_COUNT then |products| else FEATURED_COUNT
    ensures r == products[..|r|]
  {
    Arrays.Take(products, FEATURED_COUNT)
  }

  /** `product.tags.slice(0, 3)`: the first three tags, in order (none when there are none). */
  function ShownTags(tags: seq<string>): (r: seq<string>)
    ensures |r| == if |tags| < SHOWN_TAG_COUNT then |tags| else SHOWN_TAG_COUNT
    ensures r == tags[..|r|]
  {
    Arrays.Take(tags, SHOWN_TAG_COUNT)
  }

  /** What one card of the grid shows; `price` is the formatted price text. */
  datatype Card = Card(name: string, category: string, image: string, description: string,
                       price: string, tags: seq<string>)

  function CardOf(p: Product, encode: string -> string, formatPrice: real -> string): Card {
    Card(p.name, p.category, ImageSource(p, encode), Description(p), "Rs. " + formatPrice(p.price), ShownTags(p.tags))
  }

  /** The cards of the grid: one per featured product, in catalog order. */
  function Cards(products: seq<Product>, encode: string -> string, formatPrice: real -> string): (cs: seq<Card>)
    ensures |cs| == |Featured(products)|
    ensures forall k :: 0 <= k < |cs| ==> cs[k] == CardOf(products[k], encode, formatPrice)
  {
    var shown := Featured(products);
    seq(|shown|, k requires 0 <= k < |shown| => CardOf(shown[k], encode, formatPrice))
  }

  /** Every card shows a description, an image and at most three of its product's tags. */
  lemma CardsAreComplete(products: seq<Product>, encode: string -> string, formatPrice: real -> string)
    ensures forall c :: c in Cards(products, encode, formatPrice) ==>
              c.description != "" && c.image != "" && |c.tags| <= SHOWN_TAG_COUNT
  {
  }
}
