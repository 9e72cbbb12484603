/** The product selector of products.py (`find_contextually_relevant_products`):
    every catalog product is scored against every topic of a paragraph, its
    best boosted and weighted relevance decides whether it is a candidate,
    and the candidates are ranked and cut to three.

    The topic table (the source's global SKINCARE_TOPICS) is a parameter,
    `skincareTopics` in the methods and `table` in the specification. */
module Selector {
  import opened Common
  import opened Text
  import opened Lexicon
  import opened Classifier
  import opened TopicDetector
  import opened Relevance
  import opened Ranking

  /** A catalog product copied with the two relevance fields the selector
      adds (`contextual_relevance` and `thematic_relevance`). */
  datatype ScoredProduct = ScoredProduct(product: Product, contextualRelevance: real, thematicRelevance: real)

  /** A product is a candidate only when its best weighted relevance is
      strictly above this. */
  const MinRelevance: real := 0.5
  /** At most this many products are returned for a paragraph. */
  const MaxRelevantProducts: nat := 3
  /** The boost for a topic met with treatment context. */
  const TreatmentBoost: real := 1.2

  /** Every topic names a domain of `table`, as every topic the detector
      reports does. */
  predicate KnownTopics(table: seq<TopicDomain>, topics: seq<TopicMatch>) {
    forall i :: 0 <= i < |topics| ==> FindTopic(table, topics[i].topic).Some?
  }

  /** A topic's relevance `base`, boosted for treatment context and weighted
      by the topic's strength. */
  function Boosted(base: real, m: TopicMatch): real {
    (if m.hasTreatmentContext then base * TreatmentBoost else base) * m.strength
  }

  /** The relevance of `p` for topic `m` of the paragraph, whose domain is
      `d`, boosted and weighted. */
  function Weighted(p: Product, d: TopicDomain, m: TopicMatch, paragraph: string, kind: string,
                    sim: Similarity): real
  {
    Boosted(ContextualRelevance(p, d, paragraph, kind, sim), m)
  }

  /** The weighted relevance of `p` for topic `m`, its domain looked up in
      `table`. */
  function WeightedIn(table: seq<TopicDomain>, p: Product, m: TopicMatch, paragraph: string, kind: string,
                      sim: Similarity): real
    requires FindTopic(table, m.topic).Some?
  {
    Weighted(p, FindTopic(table, m.topic).value, m, paragraph, kind, sim)
  }

  /** The weighted relevances of `p` for the topics, in order. */
  function Weights(table: seq<TopicDomain>, p: Product, topics: seq<TopicMatch>, paragraph: string,
                   kind: string, sim: Similarity): (ws: seq<real>)
    requires KnownTopics(table, topics)
    ensures |ws| == |topics|
  {
    seq(|topics|, i requires 0 <= i < |topics| => WeightedIn(table, p, topics[i], paragraph, kind, sim))
  }

  /** `max_relevance = 0` updated by `max(max_relevance, w)` for each `w`. */
  function RunningMax(ws: seq<real>): real {
    if ws == [] then 0.0 else Max(RunningMax(ws[..|ws| - 1]), ws[|ws| - 1])
  }

  /** The inner loop: the best weighted relevance of `p`, or 0. */
  function MaxRelevance(table: seq<TopicDomain>, p: Product, topics: seq<TopicMatch>, paragraph: string,
                        kind: string, sim: Similarity): real
    requires KnownTopics(table, topics)
  {
    RunningMax(Weights(table, p, topics, paragraph, kind, sim))
  }

  /** The outer loop: the products of `db`, in catalog order, whose best
      weighted relevance exceeds MinRelevance, with that relevance. */
  function Candidates(table: seq<TopicDomain>, db: seq<Product>, topics: seq<TopicMatch>,
                      paragraph: string, kind: string, sim: Similarity): seq<ScoredProduct>
    requires KnownTopics(table, topics)
  {
    if db == [] then []
    else
      var p := db[|db| - 1];
      var m := MaxRelevance(table, p, topics, paragraph, kind, sim);
      Candidates(table, db[..|db| - 1], topics, paragraph, kind, sim)
      + if m > MinRelevance then [ScoredProduct(p, m, m)] else []
  }

  /** The sort key `contextual_relevance`. */
  function RelevanceOf(s: ScoredProduct): real {
    s.contextualRelevance
  }

  /** The candidates ranked by relevance, at most MaxRelevantProducts. */
  function FindRelevant(table: seq<TopicDomain>, paragraph: string, topics: seq<TopicMatch>, kind: string,
                        db: seq<Product>, sim: Similarity): seq<ScoredProduct>
    requires KnownTopics(table, topics)
  {
    Take(SortDesc(Candidates(table, db, topics, paragraph, kind, sim), RelevanceOf), MaxRelevantProducts)
  }

  /** The treatment boost and the strength weighting of the inner loop of
      `find_contextually_relevant_products`, applied to a relevance. */
  method BoostAndWeight(productRelevance: real, topicInfo: TopicMatch) returns (weightedRelevance: real)
    ensures weightedRelevance == Boosted(productRelevance, topicInfo)
  {
    var relevance := productRelevance;
    if topicInfo.hasTreatmentContext {
      relevance := relevance * TreatmentBoost;
    }
    weightedRelevance := relevance * topicInfo.strength;
  }

  /** The body of the inner loop of `find_contextually_relevant_products`:
      the product's relevance for one topic, boosted and weighted. */
  method WeightedRelevance(skincareTopics: seq<TopicDomain>, product: Product, topicInfo: TopicMatch,
                           paragraph: string, paragraphType: Classification, sim: Similarity)
    returns (weightedRelevance: real)
    requires FindTopic(skincareTopics, topicInfo.topic).Some?
    ensures weightedRelevance == WeightedIn(skincareTopics, product, topicInfo, paragraph, paragraphType.kind, sim)
  {
    var productRelevance := CalculateContextualProductRelevance(skincareTopics, product, topicInfo.topic,
                                                                paragraph, paragraphType, sim);
    weightedRelevance := BoostAndWeight(productRelevance, topicInfo);
  }

  /** The inner loop of `find_contextually_relevant_products` for one
      product: its best weighted relevance over the paragraph's topics. */
  method BestWeightedRelevance(skincareTopics: seq<TopicDomain>, product: Product, paragraphTopics: seq<TopicMatch>, paragraph: string,
                               paragraphType: Classification, sim: Similarity)
    returns (maxRelevance: real)
    requires KnownTopics(skincareTopics, paragraphTopics)
    ensures maxRelevance == MaxRelevance(skincareTopics, product, paragraphTopics, paragraph,
                                         paragraphType.kind, sim)
  {
    ghost var ws := Weights(skincareTopics, product, paragraphTopics, paragraph, paragraphType.kind, sim);
    maxRelevance := 0.0;
    var j := 0;
    while j < |paragraphTopics|
      invariant 0 <= j <= |paragraphTopics|
      invariant maxRelevance == RunningMax(ws[..j])
    {
      var weightedRelevance := WeightedRelevance(skincareTopics, product, paragraphTopics[j], paragraph, paragraphType, sim);
      assert ws[j] == weightedRelevance;
      maxRelevance := Max(maxRelevance, weightedRelevance);
      assert ws[..j + 1][..j] == ws[..j];
      j := j + 1;
    }
    assert ws[..j] == ws;
  }

  /** `find_contextually_relevant_products`. */
  method FindContextuallyRelevantProducts(skincareTopics: seq<TopicDomain>, paragraph: string, paragraphTopics: seq<TopicMatch>,
                                          paragraphType: Classification, produktyDb: seq<Product>,
                                          sim: Similarity)
    returns (relevant: seq<ScoredProduct>)
    requires KnownTopics(skincareTopics, paragraphTopics)
    ensures relevant == FindRelevant(skincareTopics, paragraph, paragraphTopics, paragraphType.kind,
                                     produktyDb, sim)
  {
    var relevantProducts: seq<ScoredProduct> := [];
    var i := 0;
    while i < |produktyDb|
      invariant 0 <= i <= |produktyDb|
      invariant relevantProducts == Candidates(skincareTopics, produktyDb[..i], paragraphTopics, paragraph,
                                               paragraphType.kind, sim)
    {
      var product := produktyDb[i];
      var maxRelevance := BestWeightedRelevance(skincareTopics, product, paragraphTopics, paragraph, paragraphType, sim);
      if maxRelevance > MinRelevance {
        relevantProducts := relevantProducts + [ScoredProduct(product, maxRelevance, maxRelevance)];
      }
      assert produktyDb[..i + 1][..i] == produktyDb[..i];
      i := i + 1;
    }
    assert produktyDb[..i] == produktyDb;
    relevantProducts := SortDesc(relevantProducts, RelevanceOf);
    relevant := Take(relevantProducts, MaxRelevantProducts);
  }

  /** The running maximum is at least 0 and at least every element, and it
      is 0 or one of the elements. */
  lemma {:induction false} RunningMaxIsMax(ws: seq<real>)
    ensures RunningMax(ws) >= 0.0
    ensures forall i :: 0 <= i < |ws| ==> ws[i] <= RunningMax(ws)
    ensures RunningMax(ws) == 0.0 || exists i :: 0 <= i < |ws| && RunningMax(ws) == ws[i]
  {
    if ws != [] {
      var n := |ws| - 1;
      RunningMaxIsMax(ws[..n]);
      assert forall i :: 0 <= i < n ==> ws[i] == ws[..n][i];
      if RunningMax(ws[..n]) >= ws[n] && RunningMax(ws[..n]) != 0.0 {
        var i :| 0 <= i < n && RunningMax(ws[..n]) == ws[..n][i];
        assert RunningMax(ws) == ws[i];
      }
    }
  }

  /** The best weighted relevance is at least 0 and at least the weighted
      relevance for every topic, and it is 0 or the relevance for one of
      them. */
  lemma MaxRelevanceIsMax(table: seq<TopicDomain>, p: Product, topics: seq<TopicMatch>, paragraph: string,
                          kind: string, sim: Similarity)
    requires KnownTopics(table, topics)
    ensures MaxRelevance(table, p, topics, paragraph, kind, sim) >= 0.0
    ensures forall i :: 0 <= i < |topics| ==>
              WeightedIn(table, p, topics[i], paragraph, kind, sim) <= MaxRelevance(table, p, topics, paragraph, kind, sim)
    ensures MaxRelevance(table, p, topics, paragraph, kind, sim) == 0.0
         || exists i :: 0 <= i < |topics| && MaxRelevance(table, p, topics, paragraph, kind, sim)
                                              == WeightedIn(table, p, topics[i], paragraph, kind, sim)
  {
    var ws := Weights(table, p, topics, paragraph, kind, sim);
    RunningMaxIsMax(ws);
    assert forall i :: 0 <= i < |topics| ==> ws[i] == WeightedIn(table, p, topics[i], paragraph, kind, sim);
  }

  /** The candidates are exactly the products of the catalog whose best
      weighted relevance exceeds MinRelevance, each with that relevance in
      both fields. */
  lemma {:induction false} CandidatesExact(table: seq<TopicDomain>, db: seq<Product>, topics: seq<TopicMatch>,
                                           paragraph: string, kind: string, sim: Similarity)
    requires KnownTopics(table, topics)
    ensures forall c :: c in Candidates(table, db, topics, paragraph, kind, sim) ==>
              && c.product in db
              && c.contextualRelevance == MaxRelevance(table, c.product, topics, paragraph, kind, sim)
              && c.thematicRelevance == c.contextualRelevance
              && c.contextualRelevance > MinRelevance
    ensures forall p :: p in db && MaxRelevance(table, p, topics, paragraph, kind, sim) > MinRelevance ==>
              var m := MaxRelevance(table, p, topics, paragraph, kind, sim);
              ScoredProduct(p, m, m) in Candidates(table, db, topics, paragraph, kind, sim)
  {
    if db != [] {
      var n := |db| - 1;
      CandidatesExact(table, db[..n], topics, paragraph, kind, sim);
      assert db == db[..n] + [db[n]];
    }
  }

  /** What the selector returns: at most MaxRelevantProducts catalog
      products, ranked by relevance, each above MinRelevance with its best
      weighted relevance in both relevance fields. */
  lemma FindRelevantSound(table: seq<TopicDomain>, paragraph: string, topics: seq<TopicMatch>, kind: string,
                          db: seq<Product>, sim: Similarity)
    requires KnownTopics(table, topics)
    ensures |FindRelevant(table, paragraph, topics, kind, db, sim)| <= MaxRelevantProducts
    ensures SortedDesc(FindRelevant(table, paragraph, topics, kind, db, sim), RelevanceOf)
    ensures forall c :: c in FindRelevant(table, paragraph, topics, kind, db, sim) ==>
              && c.product in db
              && c.contextualRelevance == MaxRelevance(table, c.product, topics, paragraph, kind, sim)
              && c.thematicRelevance == c.contextualRelevance
              && c.contextualRelevance > MinRelevance
  {
    var cands := Candidates(table, db, topics, paragraph, kind, sim);
    CandidatesExact(table, db, topics, paragraph, kind, sim);
    SortDescSorted(cands, RelevanceOf);
    TakeOfSorted(SortDesc(cands, RelevanceOf), RelevanceOf, MaxRelevantProducts);
    TopFrom(cands, RelevanceOf, MaxRelevantProducts);
  }

  /** No suitable product is passed over: a catalog product above
      MinRelevance is returned, or MaxRelevantProducts products at least as
      relevant are. */
  lemma FindRelevantComplete(table: seq<TopicDomain>, paragraph: string, topics: seq<TopicMatch>, kind: string,
                             db: seq<Product>, sim: Similarity, p: Product)
    requires KnownTopics(table, topics)
    requires p in db && MaxRelevance(table, p, topics, paragraph, kind, sim) > MinRelevance
    ensures var m := MaxRelevance(table, p, topics, paragraph, kind, sim);
            var r := FindRelevant(table, paragraph, topics, kind, db, sim);
            ScoredProduct(p, m, m) in r
            || (|r| == MaxRelevantProducts && forall i :: 0 <= i < |r| ==> r[i].contextualRelevance >= m)
  {
    var m := MaxRelevance(table, p, topics, paragraph, kind, sim);
    CandidatesExact(table, db, topics, paragraph, kind, sim);
    TopComplete(Candidates(table, db, topics, paragraph, kind, sim), RelevanceOf, MaxRelevantProducts,
                ScoredProduct(p, m, m));
  }

  /** Helper: `0 <= a <= c` scaled by a factor of at most 1 stays at most `c`,
      and by a non-negative factor stays non-negative. */
  lemma ScaleAtMost(a: real, b: real, c: real)
    requires 0.0 <= a <= c && b <= 1.0
    ensures a * b <= c
    ensures 0.0 <= b ==> 0.0 <= a * b
  {
    if b <= 0.0 {
      assert a * b <= 0.0;
    } else {
      assert a * b <= a * 1.0;
    }
  }

  /** A relevance in [0, 1] boosted and weighted by a strength in [0, 1]
      lies in [0, 1.2], and in [0, 1] without treatment context. */
  lemma BoostedBounds(base: real, m: TopicMatch)
    requires 0.0 <= base <= 1.0 && 0.0 <= m.strength <= 1.0
    ensures 0.0 <= Boosted(base, m) <= TreatmentBoost
    ensures !m.hasTreatmentContext ==> Boosted(base, m) <= 1.0
  {
    var boosted := if m.hasTreatmentContext then base * TreatmentBoost else base;
    ScaleAtMost(boosted, m.strength, if m.hasTreatmentContext then TreatmentBoost else 1.0);
  }

  /** The bound is reached: a relevance of 1 for a topic of full strength
      with treatment context is weighted to 1.2, above 1. */
  lemma BoostedReachesBound(m: TopicMatch)
    requires m.hasTreatmentContext && m.strength == 1.0
    ensures Boosted(1.0, m) == TreatmentBoost
    ensures Boosted(1.0, m) > 1.0
  {
  }

  /** With a similarity in [0, 1] and a strength in [0, 1], a weighted
      relevance lies in [0, 1.2]; only the treatment boost takes it above 1. */
  lemma WeightedBounds(p: Product, d: TopicDomain, m: TopicMatch, paragraph: string, kind: string,
                       sim: Similarity)
    requires ValidSimilarity(sim) && 0.0 <= m.strength <= 1.0
    ensures 0.0 <= Weighted(p, d, m, paragraph, kind, sim) <= TreatmentBoost
    ensures !m.hasTreatmentContext ==> Weighted(p, d, m, paragraph, kind, sim) <= 1.0
  {
    RelevanceBounds(p, d, paragraph, kind, sim);
    BoostedBounds(ContextualRelevance(p, d, paragraph, kind, sim), m);
  }

  /** A product that shares no topic keyword, treatment keyword or
      product-type phrase with any of the paragraph's domains never reaches
      MinRelevance, so it is never returned. */
  lemma NoSharedVocabularyNeverReturned(table: seq<TopicDomain>, paragraph: string, topics: seq<TopicMatch>,
                                        kind: string, db: seq<Product>, sim: Similarity, p: Product)
    requires KnownTopics(table, topics)
    requires ValidSimilarity(sim)
    requires forall i :: 0 <= i < |topics| ==> topics[i].strength <= 1.0
    requires forall i :: 0 <= i < |topics| ==>
               var d := FindTopic(table, topics[i].topic).value;
               && !AnyFound(d.keywords, ProductText(p))
               && !AnyFound(d.treatmentKeywords, ProductText(p))
               && !AnyFound(d.relatedProducts, ProductText(p))
    ensures MaxRelevance(table, p, topics, paragraph, kind, sim) <= 0.066
    ensures forall c :: c in FindRelevant(table, paragraph, topics, kind, db, sim) ==> c.product != p
  {
    forall i | 0 <= i < |topics| ensures WeightedIn(table, p, topics[i], paragraph, kind, sim) <= 0.066 {
      var d := FindTopic(table, topics[i].topic).value;
      NoSharedVocabularyLowRelevance(p, d, paragraph, kind, sim);
      RelevanceBounds(p, d, paragraph, kind, sim);
      var base := ContextualRelevance(p, d, paragraph, kind, sim);
      ScaleAtMost(if topics[i].hasTreatmentContext then base * TreatmentBoost else base,
                  topics[i].strength, 0.066);
    }
    MaxRelevanceIsMax(table, p, topics, paragraph, kind, sim);
    FindRelevantSound(table, paragraph, topics, kind, db, sim);
  }
}
