/**
 * `getRecommendations` of the chat route: keyword extraction, product scoring,
 * the stable ranking by score, the top-3 cut and the reply text.
 */
module Recommendations {
  import opened Optional
  import opened Strings
  import opened Catalog
  import Arrays

  const RECOMMENDATION_HEADER: string := "Here are some product recommendations:\n\n"
  const FEATURED_HEADER: string := "Here are our featured products:\n\n"

  /** `lowerMessage.split(/\s+/).filter(word => word.length > 3)`. */
  function Keywords(lowerMessage: string): (ks: seq<string>)
    ensures forall k :: 0 <= k < |ks| ==> |ks[k]| > 3
  {
    Arrays.Filter(Words(lowerMessage), (w: string) => |w| > 3)
  }

  /** The keywords are exactly the words of the message longer than three characters: each
      such word as often as it occurs, in message order, and each a piece of the message free
      of white space. */
  lemma KeywordsAreLongWords(lowerMessage: string)
    ensures forall w :: multiset(Keywords(lowerMessage))[w] == if |w| > 3 then multiset(Words(lowerMessage))[w] else 0
    ensures Arrays.IsSubsequence(Keywords(lowerMessage), Words(lowerMessage))
    ensures forall k :: 0 <= k < |Keywords(lowerMessage)| ==>
              var kw := Keywords(lowerMessage)[k];
              |kw| > 3 && Contains(lowerMessage, kw) && forall c :: c in kw ==> !IsSpace(c)
  {
    var words := Words(lowerMessage);
    var long := (w: string) => |w| > 3;
    Arrays.FilterCounts(words, long);
    Arrays.FilterIsSubsequence(words, long);
    WordsOccur(lowerMessage);
    assert forall w :: w in words ==> Contains(lowerMessage, w) && forall c :: c in w ==> !IsSpace(c);
  }

  function LowerAll(xs: seq<string>): seq<string> {
    seq(|xs|, k requires 0 <= k < |xs| => Lower(xs[k]))
  }

  /** `keywords.some(kw => productCategory.includes(kw))`. */
  predicate CategoryHit(lowerCategory: string, keywords: seq<string>) {
    exists kw :: kw in keywords && Contains(lowerCategory, kw)
  }

  /** `productTags.some(tag => tag.includes(kw))`. */
  predicate TagHit(lowerTags: seq<string>, kw: string) {
    exists tag :: tag in lowerTags && Contains(tag, kw)
  }

  /** How many keywords, repeats counted again, occur in some tag. */
  function TagHits(keywords: seq<string>, lowerTags: seq<string>): (n: nat)
    ensures n <= |keywords|
  {
    if keywords == [] then 0
    else TagHits(keywords[..|keywords| - 1], lowerTags) + (if TagHit(lowerTags, keywords[|keywords| - 1]) then 1 else 0)
  }

  /** Some keyword scores a tag point exactly when some keyword occurs in a tag. */
  lemma {:induction false} TagHitsPositive(keywords: seq<string>, lowerTags: seq<string>)
    ensures TagHits(keywords, lowerTags) > 0 <==> exists kw :: kw in keywords && TagHit(lowerTags, kw)
  {
    if keywords != [] {
      var init := keywords[..|keywords| - 1];
      TagHitsPositive(init, lowerTags);
      assert keywords == init + [keywords[|keywords| - 1]];
    }
  }

  /** The score of a product: 5 when some keyword occurs in its lower-cased category,
      plus 3 for every keyword that occurs in one of its lower-cased tags. */
  function Score(keywords: seq<string>, p: Product): (s: nat)
    ensures s <= 5 + 3 * |keywords|
  {
    (if CategoryHit(Lower(p.category), keywords) then 5 else 0) + 3 * TagHits(keywords, LowerAll(p.tags))
  }

  /** A product scores exactly when some keyword occurs in its category or in one of its tags,
      and it scores at most 5 plus 3 per keyword. */
  lemma ScorePositiveIff(keywords: seq<string>, p: Product)
    ensures Score(keywords, p) > 0 <==> (CategoryHit(Lower(p.category), keywords)
                                         || exists kw :: kw in keywords && TagHit(LowerAll(p.tags), kw))
    ensures Score(keywords, p) <= 5 + 3 * |keywords|
  {
    TagHitsPositive(keywords, LowerAll(p.tags));
  }

  /** A product with the score it was pushed with. */
  datatype Scored = Scored(product: Product, score: nat)

  /** The `recommendations` array after the scoring loop: each product scoring above zero,
      with its score, in catalog order. */
  function ScoreAll(keywords: seq<string>, products: seq<Product>): (r: seq<Scored>)
    ensures forall k :: 0 <= k < |r| ==> r[k].score > 0 && r[k].score == Score(keywords, r[k].product)
    ensures forall k :: 0 <= k < |r| ==> r[k].product in products
  {
    if products == [] then []
    else
      var init := ScoreAll(keywords, products[..|products| - 1]);
      var p := products[|products| - 1];
      var s := Score(keywords, p);
      if s > 0 then init + [Scored(p, s)] else init
  }

  function ProductsOf(s: seq<Scored>): seq<Product> {
    seq(|s|, k requires 0 <= k < |s| => s[k].product)
  }

  predicate Scores(keywords: seq<string>, p: Product) {
    Score(keywords, p) > 0
  }

  /** The scored products are exactly the catalog filtered on "scores above zero", in order. */
  lemma {:induction false} ScoreAllIsFilter(keywords: seq<string>, products: seq<Product>)
    ensures ProductsOf(ScoreAll(keywords, products)) == Arrays.Filter(products, p => Scores(keywords, p))
  {
    if products != [] {
      var init, last := products[..|products| - 1], products[|products| - 1];
      var scores := p => Scores(keywords, p);
      ScoreAllIsFilter(keywords, init);
      assert products == init + [last];
      Arrays.FilterAppend(init, [last], scores);
      assert Arrays.Filter([last], scores) == if scores(last) then [last] else [] by {
        assert [last][1..] == [];
      }
      ProductsOfSnoc(ScoreAll(keywords, init), Scored(last, Score(keywords, last)));
    }
  }

  lemma ProductsOfSnoc(s: seq<Scored>, x: Scored)
    ensures ProductsOf(s + [x]) == ProductsOf(s) + [x.product]
  {
  }

  /** Non-increasing scores: what `sort((a, b) => b.score - a.score)` establishes. */
  predicate SortedByScore(s: seq<Scored>) {
    forall i, j :: 0 <= i < j < |s| ==> s[i].score >= s[j].score
  }

  /** The entries with score `v`, in their order. */
  function WithScore(s: seq<Scored>, v: nat): seq<Scored> {
    if s == [] then []
    else WithScore(s[..|s| - 1], v) + (if s[|s| - 1].score == v then [s[|s| - 1]] else [])
  }

  /** The entries of one score are taken from the sequence and carry that score. */
  lemma {:induction false} WithScoreMembers(s: seq<Scored>, v: nat)
    ensures forall k :: 0 <= k < |WithScore(s, v)| ==> WithScore(s, v)[k] in s && WithScore(s, v)[k].score == v
  {
    if s != [] {
      var init := s[..|s| - 1];
      WithScoreMembers(init, v);
      assert forall x :: x in init ==> x in s;
    }
  }

  lemma {:induction false} WithScoreAppend(a: seq<Scored>, b: seq<Scored>, v: nat)
    ensures WithScore(a + b, v) == WithScore(a, v) + WithScore(b, v)
    decreases |b|
  {
    if b == [] {
      assert a + b == a;
    } else {
      var init := b[..|b| - 1];
      WithScoreAppend(a, init, v);
      assert (a + b)[..|a + b| - 1] == a + init;
      assert (a + b)[|a + b| - 1] == b[|b| - 1];
    }
  }

  /** Inserts `x` after every entry scoring at least as much, so that it follows the entries
      it tied with. */
  function Insert(x: Scored, s: seq<Scored>): seq<Scored> {
    if s == [] then [x]
    else if s[|s| - 1].score >= x.score then s + [x]
    else Insert(x, s[..|s| - 1]) + [s[|s| - 1]]
  }

  /** A stable sort by descending score (insertion sort). */
  function SortByScore(s: seq<Scored>): (r: seq<Scored>)
    ensures multiset(r) == multiset(s)
  {
    if s == [] then []
    else
      var init, last := s[..|s| - 1], s[|s| - 1];
      InsertMultiset(last, SortByScore(init));
      assert s == init + [last];
      Insert(last, SortByScore(init))
  }

  lemma {:induction false} InsertMultiset(x: Scored, s: seq<Scored>)
    ensures multiset(Insert(x, s)) == multiset(s) + multiset{x}
  {
    if s != [] && s[|s| - 1].score < x.score {
      var init, last := s[..|s| - 1], s[|s| - 1];
      InsertMultiset(x, init);
      assert s == init + [last];
    }
  }

  lemma {:induction false} InsertSorted(x: Scored, s: seq<Scored>)
    requires SortedByScore(s)
    ensures SortedByScore(Insert(x, s))
  {
    if s != [] && s[|s| - 1].score < x.score {
      var init, last := s[..|s| - 1], s[|s| - 1];
      InsertSorted(x, init);
      InsertMultiset(x, init);
      var r := Insert(x, init);
      forall k | 0 <= k < |r| ensures r[k].score >= last.score {
        assert r[k] in multiset(r);
        assert r[k] == x || r[k] in multiset(init);
      }
    }
  }

  lemma {:induction false} InsertWithScore(x: Scored, s: seq<Scored>, v: nat)
    ensures WithScore(Insert(x, s), v) == WithScore(s, v) + WithScore([x], v)
  {
    if s == [] {
      assert [x] == [] + [x];
    } else if s[|s| - 1].score >= x.score {
      WithScoreAppend(s, [x], v);
    } else {
      var init, last := s[..|s| - 1], s[|s| - 1];
      InsertWithScore(x, init, v);
      WithScoreAppend(Insert(x, init), [last], v);
      WithScoreAppend(init, [last], v);
      assert s == init + [last];
      assert WithScore([last], v) == [] || WithScore([x], v) == [];
    }
  }

  /** The model sort orders by non-increasing score. */
  lemma {:induction false} SortByScoreSorted(s: seq<Scored>)
    ensures SortedByScore(SortByScore(s))
  {
    if s != [] {
      var init, last := s[..|s| - 1], s[|s| - 1];
      SortByScoreSorted(init);
      InsertSorted(last, SortByScore(init));
    }
  }

  /** The model sort keeps the entries of each score in their original order. */
  lemma {:induction false} SortByScoreKeepsTies(s: seq<Scored>, v: nat)
    ensures WithScore(SortByScore(s), v) == WithScore(s, v)
  {
    if s != [] {
      var init, last := s[..|s| - 1], s[|s| - 1];
      SortByScoreKeepsTies(init, v);
      InsertWithScore(last, SortByScore(init), v);
      WithScoreLast(s, v);
      WithScoreLast([last], v);
      assert [last][..0] == [];
    }
  }

  /** The model sort orders by non-increasing score and keeps the catalog order among ties. */
  lemma SortByScoreStable(s: seq<Scored>)
    ensures SortedByScore(SortByScore(s))
    ensures multiset(SortByScore(s)) == multiset(s)
    ensures forall v :: WithScore(SortByScore(s), v) == WithScore(s, v)
  {
    SortByScoreSorted(s);
    forall v ensures WithScore(SortByScore(s), v) == WithScore(s, v) {
      SortByScoreKeepsTies(s, v);
    }
  }

  lemma WithScoreLast(s: seq<Scored>, v: nat)
    requires s != []
    ensures WithScore(s, v) == WithScore(s[..|s| - 1], v) + (if s[|s| - 1].score == v then [s[|s| - 1]] else [])
  {
  }

  /** In a sorted sequence the last entry scores no more than any score that occurs. */
  lemma LastScoreIsLeast(s: seq<Scored>, v: nat)
    requires SortedByScore(s) && WithScore(s, v) != []
    ensures s != [] && s[|s| - 1].score <= v
  {
    var w := WithScore(s, v);
    WithScoreMembers(s, v);
    assert w[0] in s;
    var i :| 0 <= i < |s| && s[i] == w[0];
  }

  /** Sorted by non-increasing score with ties in the input's order determines the result:
      every stable sort of the same entries gives the same sequence as `SortByScore`. */
  lemma {:induction false} StableSortUnique(a: seq<Scored>, b: seq<Scored>)
    requires SortedByScore(a) && SortedByScore(b)
    requires forall v :: WithScore(a, v) == WithScore(b, v)
    ensures a == b
    decreases |a| + |b|
  {
    if a != [] {
      var a', x := a[..|a| - 1], a[|a| - 1];
      WithScoreLast(a, x.score);
      LastScoreIsLeast(b, x.score);
      var b', y := b[..|b| - 1], b[|b| - 1];
      WithScoreLast(b, y.score);
      LastScoreIsLeast(a, y.score);
      assert x.score == y.score;
      var wa := WithScore(a, x.score);
      assert wa == WithScore(a', x.score) + [x];
      assert wa == WithScore(b', x.score) + [y];
      assert x == wa[|wa| - 1] == y;
      forall v ensures WithScore(a', v) == WithScore(b', v) {
        WithScoreLast(a, v);
        WithScoreLast(b, v);
        var pa, pb := WithScore(a', v), WithScore(b', v);
        if v == x.score {
          assert pa == (pa + [x])[..|pa|] == (pb + [y])[..|pb|] == pb;
        } else {
          assert pa == pa + [];
          assert pb == pb + [];
        }
      }
      StableSortUnique(a', b');
      assert a == a' + [x] && b == b' + [y];
    } else if b != [] {
      WithScoreLast(b, b[|b| - 1].score);
    }
  }

  /** `recommendations.slice(0, 3).map(r => r.product)` after the sort. */
  function TopRecommendations(message: string, products: seq<Product>): (top: seq<Product>)
    ensures |top| <= 3
    ensures forall k :: 0 <= k < |top| ==> top[k] in products && Score(Keywords(Lower(message)), top[k]) > 0
  {
    var keywords := Keywords(Lower(message));
    TopRecommendationsScored(keywords, products);
    ProductsOf(Arrays.Take(SortByScore(ScoreAll(keywords, products)), 3))
  }

  /** The ranking promises of the top-3 list: at most three entries, in non-increasing score
      order, ties in catalog order, and nothing left out scoring higher than anything kept. */
  lemma {:induction false} TopRecommendationsRanked(keywords: seq<string>, products: seq<Product>)
    ensures var ranked := SortByScore(ScoreAll(keywords, products));
            var top := Arrays.Take(ranked, 3);
            && |top| <= 3
            && SortedByScore(top)
            && (forall v :: WithScore(ranked, v) == WithScore(ScoreAll(keywords, products), v))
            && (forall i, j :: 0 <= i < |top| <= j < |ranked| ==> ranked[i].score >= ranked[j].score)
  {
    SortByScoreStable(ScoreAll(keywords, products));
  }

  /** Each recommended entry, and so each recommended product, comes from the catalog and
      carries its own positive score; there are at most three. */
  lemma {:induction false} TopRecommendationsScored(keywords: seq<string>, products: seq<Product>)
    ensures var top := Arrays.Take(SortByScore(ScoreAll(keywords, products)), 3);
            forall k :: 0 <= k < |top| ==>
              top[k].product in products && top[k].score > 0 && top[k].score == Score(keywords, top[k].product)
    ensures var top := ProductsOf(Arrays.Take(SortByScore(ScoreAll(keywords, products)), 3));
            && |top| <= 3
            && forall k :: 0 <= k < |top| ==> top[k] in products && Score(keywords, top[k]) > 0
  {
    var scored := ScoreAll(keywords, products);
    var sorted := SortByScore(scored);
    var ranked := Arrays.Take(sorted, 3);
    forall k | 0 <= k < |ranked|
      ensures ranked[k].product in products && ranked[k].score > 0 && ranked[k].score == Score(keywords, ranked[k].product)
    {
      assert ranked[k] == sorted[k];
      assert ranked[k] in multiset(sorted);
      assert ranked[k] in scored;
    }
    var top := ProductsOf(ranked);
    forall k | 0 <= k < |top|
      ensures top[k] in products && Score(keywords, top[k]) > 0
    {
      assert top[k] == ranked[k].product;
    }
  }

  /** No product scores exactly when the scoring loop pushes nothing. */
  lemma {:induction false} NothingScores(keywords: seq<string>, products: seq<Product>)
    ensures ScoreAll(keywords, products) == [] <==> forall k :: 0 <= k < |products| ==> Score(keywords, products[k]) == 0
  {
    if products != [] {
      var init := products[..|products| - 1];
      NothingScores(keywords, init);
      assert forall k :: 0 <= k < |init| ==> init[k] == products[k];
    }
  }

  function RecommendationEntry(n: nat, p: Product, formatPrice: real -> string): string {
    NatToString(n) + ". " + p.name + "\n"
    + "   Category: " + p.category + "\n"
    + "   Price: Rs. " + formatPrice(p.price) + "\n"
    + "   Tags: " + Join(p.tags, ", ") + "\n\n"
  }

  /** The numbered entries 1..|ps| of the recommendation list. */
  function RecommendationLines(ps: seq<Product>, formatPrice: real -> string): string {
    if ps == [] then ""
    else RecommendationLines(ps[..|ps| - 1], formatPrice) + RecommendationEntry(|ps|, ps[|ps| - 1], formatPrice)
  }

  function FeaturedEntry(n: nat, p: Product, formatPrice: real -> string): string {
    NatToString(n) + ". " + p.name + " - Rs. " + formatPrice(p.price) + "\n"
  }

  /** The numbered entries 1..|ps| of the featured-products fallback. */
  function FeaturedLines(ps: seq<Product>, formatPrice: real -> string): string {
    if ps == [] then ""
    else FeaturedLines(ps[..|ps| - 1], formatPrice) + FeaturedEntry(|ps|, ps[|ps| - 1], formatPrice)
  }

  /** The value `getRecommendations` returns: the ranked list when some product scores, the
      first three catalog products when none does, and nothing for an empty catalog. */
  function RecommendationReply(message: string, products: seq<Product>, formatPrice: real -> string): (r: Option<string>)
    ensures r.None? <==> products == []
    ensures r.Some? ==> r.value != ""
  {
    var top := TopRecommendations(message, products);
    SortByScoreStable(ScoreAll(Keywords(Lower(message)), products));
    if top != [] then
      Some(RECOMMENDATION_HEADER + RecommendationLines(top, formatPrice))
    else if products != [] then
      Some(FEATURED_HEADER + FeaturedLines(Arrays.Take(products, 3), formatPrice))
    else
      None
  }

  /** The body of the scoring loop for one product: 5 for a category hit, then 3 per keyword
      found in a tag. */
  method ScoreProduct(keywords: seq<string>, product: Product) returns (score: nat)
    ensures score == Score(keywords, product)
  {
    score := 0;
    var productCategory := Lower(product.category);
    var productTags := LowerAll(product.tags);

    if CategoryHit(productCategory, keywords) {
      score := score + 5;
    }

    for j := 0 to |keywords|
      invariant score == (if CategoryHit(productCategory, keywords) then 5 else 0) + 3 * TagHits(keywords[..j], productTags)
    {
      assert keywords[..j + 1][..j] == keywords[..j];
      if TagHit(productTags, keywords[j]) {
        score := score + 3;
      }
    }
    assert keywords[..|keywords|] == keywords;
  }

  /** A non-empty catalog in which nothing scores gets the featured list: the first three
      catalog products (all of them when fewer), in catalog order. */
  lemma FeaturedWhenNothingScores(message: string, products: seq<Product>, formatPrice: real -> string)
    requires products != []
    requires forall k :: 0 <= k < |products| ==> Score(Keywords(Lower(message)), products[k]) == 0
    ensures RecommendationReply(message, products, formatPrice)
            == Some(FEATURED_HEADER + FeaturedLines(products[..if |products| < 3 then |products| else 3], formatPrice))
  {
    var scored := ScoreAll(Keywords(Lower(message)), products);
    NothingScores(Keywords(Lower(message)), products);
    SortByScoreStable(scored);
    assert |SortByScore(scored)| == |scored| == 0;
    if |products| <= 3 {
      assert products[..|products|] == products;
    }
  }

  /** When some product scores, the reply is the recommendation header followed by the
      numbered top recommendations, and there is at least one of them. */
  lemma SomethingScores(message: string, products: seq<Product>, formatPrice: real -> string, k: nat)
    requires k < |products| && Score(Keywords(Lower(message)), products[k]) > 0
    ensures TopRecommendations(message, products) != []
    ensures RecommendationReply(message, products, formatPrice)
            == Some(RECOMMENDATION_HEADER + RecommendationLines(TopRecommendations(message, products), formatPrice))
  {
    var scored := ScoreAll(Keywords(Lower(message)), products);
    NothingScores(Keywords(Lower(message)), products);
    assert scored != [];
    SortByScoreStable(scored);
    assert |SortByScore(scored)| == |multiset(SortByScore(scored))| == |multiset(scored)| == |scored| > 0;
  }

  /** `getRecommendations`: scores every product in a loop, sorts, keeps three and builds the reply. */
  method GetRecommendations(message: string, products: seq<Product>, formatPrice: real -> string)
    returns (reply: Option<string>)
    ensures reply == RecommendationReply(message, products, formatPrice)
  {
    var lowerMessage := Lower(message);
    var keywords := Keywords(lowerMessage);
    var recommendations: seq<Scored> := [];

    for i := 0 to |products|
      invariant recommendations == ScoreAll(keywords, products[..i])
    {
      var product := products[i];
      var score := ScoreProduct(keywords, product);
      assert products[..i + 1][..i] == products[..i];

      if score > 0 {
        recommendations := recommendations + [Scored(product, score)];
      }
    }
    assert products[..|products|] == products;

    recommendations := SortByScore(recommendations);
    var topRecommendations := ProductsOf(Arrays.Take(recommendations, 3));

    if |topRecommendations| > 0 {
      var response := ListRecommendations(topRecommendations, formatPrice);
      return Some(response);
    }

    if |products| > 0 {
      var response := ListFeatured(Arrays.Take(products, 3), formatPrice);
      return Some(response);
    }

    return None;
  }

  /** The `response +=` loop over the top recommendations. */
  method ListRecommendations(top: seq<Product>, formatPrice: real -> string) returns (response: string)
    ensures response == RECOMMENDATION_HEADER + RecommendationLines(top, formatPrice)
  {
    response := RECOMMENDATION_HEADER;
    for k := 0 to |top|
      invariant response == RECOMMENDATION_HEADER + RecommendationLines(top[..k], formatPrice)
    {
      assert top[..k + 1][..k] == top[..k];
      AppendAssoc(RECOMMENDATION_HEADER, RecommendationLines(top[..k], formatPrice), RecommendationEntry(k + 1, top[k], formatPrice));
      response := response + RecommendationEntry(k + 1, top[k], formatPrice);
    }
    assert top[..|top|] == top;
  }

  lemma AppendAssoc(a: string, b: string, c: string)
    ensures (a + b) + c == a + (b + c)
  {
  }

  /** The `response +=` loop over the first catalog products. */
  method ListFeatured(featured: seq<Product>, formatPrice: real -> string) returns (response: string)
    ensures response == FEATURED_HEADER + FeaturedLines(featured, formatPrice)
  {
    response := FEATURED_HEADER;
    for k := 0 to |featured|
      invariant response == FEATURED_HEADER + FeaturedLines(featured[..k], formatPrice)
    {
      assert featured[..k + 1][..k] == featured[..k];
      AppendAssoc(FEATURED_HEADER, FeaturedLines(featured[..k], formatPrice), FeaturedEntry(k + 1, featured[k], formatPrice));
      response := response + FeaturedEntry(k + 1, featured[k], formatPrice);
    }
    assert featured[..|featured|] == featured;
  }
}
