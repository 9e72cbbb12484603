/** The similarity-only matcher of products.py (`find_matching_products`):
    the catalog products whose similarity to the lower-cased content reaches
    a threshold, ranked by similarity, at most five. */
module Matcher {
  import opened Text
  import opened Relevance
  import opened Ranking

  /** A catalog product copied with its `similarity` to the content. */
  datatype MatchedProduct = MatchedProduct(product: Product, similarity: real)

  /** The default `threshold` of `find_matching_products`. */
  const DefaultThreshold: real := 0.3
  /** At most this many products are returned. */
  const MaxMatches: nat := 5

  /** The sort key `similarity`. */
  function SimilarityOf(m: MatchedProduct): real {
    m.similarity
  }

  /** The products of `db`, in catalog order, whose similarity to the
      lower-cased content reaches `threshold`, with that similarity. */
  function AboveThreshold(low: string, db: seq<Product>, threshold: real, sim: Similarity): seq<MatchedProduct> {
    if db == [] then []
    else
      var p := db[|db| - 1];
      var s := sim(low, ProductText(p));
      AboveThreshold(low, db[..|db| - 1], threshold, sim)
      + if s >= threshold then [MatchedProduct(p, s)] else []
  }

  /** Nothing for empty content or an empty catalog; otherwise the matches
      ranked by similarity, at most MaxMatches. */
  function Matching(content: string, db: seq<Product>, threshold: real, sim: Similarity): seq<MatchedProduct> {
    if content == [] || db == [] then []
    else Take(SortDesc(AboveThreshold(Lower(content), db, threshold, sim), SimilarityOf), MaxMatches)
  }

  /** `find_matching_products`; a caller that leaves out `threshold` passes
      DefaultThreshold. */
  method FindMatchingProducts(content: string, productsDb: seq<Product>, threshold: real, sim: Similarity)
    returns (matching: seq<MatchedProduct>)
    ensures matching == Matching(content, productsDb, threshold, sim)
  {
    if content == [] || productsDb == [] {
      return [];
    }
    var matchingProducts: seq<MatchedProduct> := [];
    var contentLower := Lower(content);
    var i := 0;
    while i < |productsDb|
      invariant 0 <= i <= |productsDb|
      invariant matchingProducts == AboveThreshold(contentLower, productsDb[..i], threshold, sim)
    {
      var product := productsDb[i];
      var productText := ProductText(product);
      var similarity := sim(contentLower, productText);
      if similarity >= threshold {
        matchingProducts := matchingProducts + [MatchedProduct(product, similarity)];
      }
      assert productsDb[..i + 1][..i] == productsDb[..i];
      i := i + 1;
    }
    assert productsDb[..i] == productsDb;
    matchingProducts := SortDesc(matchingProducts, SimilarityOf);
    matching := Take(matchingProducts, MaxMatches);
  }

  /** The matches above the threshold are exactly the catalog products whose
      similarity reaches it, each with that similarity. */
  lemma {:induction false} AboveThresholdExact(low: string, db: seq<Product>, threshold: real, sim: Similarity)
    ensures forall m :: m in AboveThreshold(low, db, threshold, sim) ==>
              m.product in db && m.similarity == sim(low, ProductText(m.product)) && m.similarity >= threshold
    ensures forall p :: p in db && sim(low, ProductText(p)) >= threshold ==>
              MatchedProduct(p, sim(low, ProductText(p))) in AboveThreshold(low, db, threshold, sim)
  {
    if db != [] {
      var n := |db| - 1;
      AboveThresholdExact(low, db[..n], threshold, sim);
      assert db == db[..n] + [db[n]];
    }
  }

  /** The matcher returns at most MaxMatches catalog products, ranked by
      similarity, each at or above the threshold with its similarity to
      the lower-cased content; nothing for empty content or an empty
      catalog. */
  lemma MatchingSound(content: string, db: seq<Product>, threshold: real, sim: Similarity)
    ensures |Matching(content, db, threshold, sim)| <= MaxMatches
    ensures content == [] || db == [] ==> Matching(content, db, threshold, sim) == []
    ensures SortedDesc(Matching(content, db, threshold, sim), SimilarityOf)
    ensures forall m :: m in Matching(content, db, threshold, sim) ==>
              m.product in db && m.similarity == sim(Lower(content), ProductText(m.product))
              && m.similarity >= threshold
  {
    if content != [] && db != [] {
      var found := AboveThreshold(Lower(content), db, threshold, sim);
      AboveThresholdExact(Lower(content), db, threshold, sim);
      SortDescSorted(found, SimilarityOf);
      TakeOfSorted(SortDesc(found, SimilarityOf), SimilarityOf, MaxMatches);
      TopFrom(found, SimilarityOf, MaxMatches);
    }
  }

  /** No match is passed over: for non-empty content, a catalog product at
      or above the threshold is returned, or MaxMatches products at least as
      similar are. */
  lemma MatchingComplete(content: string, db: seq<Product>, threshold: real, sim: Similarity, p: Product)
    requires content != [] && p in db
    requires sim(Lower(content), ProductText(p)) >= threshold
    ensures var s := sim(Lower(content), ProductText(p));
            var r := Matching(content, db, threshold, sim);
            MatchedProduct(p, s) in r
            || (|r| == MaxMatches && forall i :: 0 <= i < |r| ==> r[i].similarity >= s)
  {
    var s := sim(Lower(content), ProductText(p));
    AboveThresholdExact(Lower(content), db, threshold, sim);
    TopComplete(AboveThreshold(Lower(content), db, threshold, sim), SimilarityOf, MaxMatches,
                MatchedProduct(p, s));
  }
}
