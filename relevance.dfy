/** The relevance scorer of products.py
    (`calculate_contextual_product_relevance`): how well one catalog
    product fits one topic domain of one classified paragraph, as a weighted
    sum of five sub-scores capped at 1.0. */
module Relevance {
  import opened Common
  import opened Text
  import opened Lexicon
  import opened Classifier

  /** A catalog entry: its name (`nazwa`), its usage description
      (`zastosowanie`) and every other field (price, url, ...) untouched. */
  datatype Product = Product(name: string, usage: string, attributes: map<string, string>)

  /** The lexical similarity of two texts (TF-IDF cosine in the source,
      0.0 when that computation fails). */
  type Similarity = (string, string) -> real

  /** A similarity that stays in [0, 1], as a cosine of non-negative
      TF-IDF vectors does. */
  ghost predicate ValidSimilarity(sim: Similarity) {
    forall a, b :: 0.0 <= sim(a, b) <= 1.0
  }

  /** Active-ingredient words that suit a treatment paragraph. */
  const ActiveWords: seq<string> := ["kwas", "serum", "aktywny", "intensywny"]

  /** Gentle-care words that suit a skincare-routine paragraph. */
  const GentleWords: seq<string> := ["delikatny", "codziennego użytku", "pielęgnujący"]

  /** Protective words that suit a prevention paragraph. */
  const ProtectiveWords: seq<string> := ["ochrona", "spf", "zabezpieczający"]

  /** The text a product is matched on: `f"{nazwa} {zastosowanie}".lower()`. */
  function ProductText(p: Product): string {
    Lower(p.name + " " + p.usage)
  }

  /** Sub-score 4: 0.3 when the product's wording suits the paragraph's
      intent, for the three intents that have such wording. */
  function ContextScore(kind: string, text: string): real {
    if kind == "treatment" then (if AnyFound(ActiveWords, text) then 0.3 else 0.0)
    else if kind == "skincare" then (if AnyFound(GentleWords, text) then 0.3 else 0.0)
    else if kind == "prevention" then (if AnyFound(ProtectiveWords, text) then 0.3 else 0.0)
    else 0.0
  }

  /** The active-ingredient words are written in lower case. */
  lemma ActiveWordsLowered()
    ensures AllLowered(ActiveWords)
  {
    assert NoCapitals(ActiveWords);
    NoCapitalsLowered(ActiveWords);
  }

  /** The gentle-care words are written in lower case. */
  lemma GentleWordsLowered()
    ensures AllLowered(GentleWords)
  {
    assert NoCapitals(GentleWords);
    NoCapitalsLowered(GentleWords);
  }

  /** The protective words are written in lower case. */
  lemma ProtectiveWordsLowered()
    ensures AllLowered(ProtectiveWords)
  {
    assert NoCapitals(ProtectiveWords);
    NoCapitalsLowered(ProtectiveWords);
  }

  /** A product whose name or usage contains, as written, an intent word of
      the paragraph's intent gets the context sub-score, whatever the case
      of the rest of its wording. */
  lemma ContextWordIgnoresCase(kind: string, p: Product, w: string)
    requires || (kind == "treatment" && w in ActiveWords)
             || (kind == "skincare" && w in GentleWords)
             || (kind == "prevention" && w in ProtectiveWords)
    requires Contains(p.name + " " + p.usage, w)
    ensures ContextScore(kind, ProductText(p)) == 0.3
  {
    ActiveWordsLowered();
    GentleWordsLowered();
    ProtectiveWordsLowered();
    LowerKeepsLoweredHit(p.name + " " + p.usage, w);
  }

  /** The weighted sum of the five sub-scores before the cap. */
  function WeightedTotal(topicScore: real, treatmentScore: real, typeScore: real,
                         contextScore: real, semanticScore: real): real {
    topicScore * 0.2 + treatmentScore * 0.4 + typeScore * 0.2 + contextScore * 0.15 + semanticScore * 0.05
  }

  /** The relevance of product `p` to domain `d` in a paragraph of intent
      `kind`. */
  function ContextualRelevance(p: Product, d: TopicDomain, paragraph: string, kind: string,
                               sim: Similarity): real {
    var text := ProductText(p);
    var topicScore := 0.2 * CountFound(d.keywords, text) as real;
    var treatmentScore := 0.3 * CountFound(d.treatmentKeywords, text) as real;
    var typeScore := 0.2 * CountFound(d.relatedProducts, text) as real;
    var semanticScore := sim(Lower(paragraph), text) * 0.2;
    Min(WeightedTotal(topicScore, treatmentScore, typeScore, ContextScore(kind, text), semanticScore), 1.0)
  }

  /** One of the source's `for keyword in ...: if keyword in text: score += w`
      loops. */
  method AddPerHit(kws: seq<string>, text: string, w: real) returns (score: real)
    ensures score == w * CountFound(kws, text) as real
  {
    score := 0.0;
    var i := 0;
    while i < |kws|
      invariant 0 <= i <= |kws|
      invariant score == w * CountFound(kws[..i], text) as real
    {
      if Contains(text, kws[i]) {
        score := score + w;
      }
      assert kws[..i + 1][..i] == kws[..i];
      i := i + 1;
    }
    assert kws[..i] == kws;
  }

  /** The body of `calculate_contextual_product_relevance` once the topic's
      domain is at hand: the three keyword loops, the intent bonus, the
      similarity term, the weighted sum and the cap. */
  method ScoreForDomain(product: Product, topicData: TopicDomain, paragraph: string,
                        kind: string, sim: Similarity) returns (r: real)
    ensures r == ContextualRelevance(product, topicData, paragraph, kind, sim)
  {
    var productText := ProductText(product);
    var paragraphLower := Lower(paragraph);

    var topicScore := AddPerHit(topicData.keywords, productText, 0.2);
    var treatmentScore := AddPerHit(topicData.treatmentKeywords, productText, 0.3);
    var productTypeScore := AddPerHit(topicData.relatedProducts, productText, 0.2);

    var contextScore := ContextScore(kind, productText);

    var semanticScore := sim(paragraphLower, productText) * 0.2;
    var totalScore := WeightedTotal(topicScore, treatmentScore, productTypeScore, contextScore, semanticScore);
    r := Min(totalScore, 1.0);
  }

  /** `calculate_contextual_product_relevance`; the topic is looked up by
      name in `skincareTopics`, as the source's `SKINCARE_TOPICS[topic]`
      does. */
  method CalculateContextualProductRelevance(skincareTopics: seq<TopicDomain>, product: Product, topic: string,
                                             paragraph: string, paragraphType: Classification, sim: Similarity)
    returns (r: real)
    requires FindTopic(skincareTopics, topic).Some?
    ensures r == ContextualRelevance(product, FindTopic(skincareTopics, topic).value, paragraph,
                                     paragraphType.kind, sim)
    ensures ValidSimilarity(sim) ==> 0.0 <= r <= 1.0
  {
    var topicData := FindTopic(skincareTopics, topic).value;
    r := ScoreForDomain(product, topicData, paragraph, paragraphType.kind, sim);
    if ValidSimilarity(sim) {
      RelevanceBounds(product, topicData, paragraph, paragraphType.kind, sim);
    }
  }

  /** With a similarity in [0, 1] the relevance lies in [0, 1]. */
  lemma RelevanceBounds(p: Product, d: TopicDomain, paragraph: string, kind: string, sim: Similarity)
    requires ValidSimilarity(sim)
    ensures 0.0 <= ContextualRelevance(p, d, paragraph, kind, sim) <= 1.0
  {
    assert 0.0 <= sim(Lower(paragraph), ProductText(p)) <= 1.0;
  }

  /** Sub-score 4 is 0 or 0.3, and it is 0 for every intent other than
      treatment, skincare and prevention. */
  lemma ContextScoreOnlyForActionKinds(kind: string, text: string)
    ensures ContextScore(kind, text) == 0.0 || ContextScore(kind, text) == 0.3
    ensures ContextScore(kind, text) != 0.0 ==> kind == "treatment" || kind == "skincare" || kind == "prevention"
  {
  }

  /** A product whose text shares no topic keyword, treatment keyword or
      product-type phrase with a domain scores at most 0.055 for it: only
      the context and similarity sub-scores remain. */
  lemma NoSharedVocabularyLowRelevance(p: Product, d: TopicDomain, paragraph: string, kind: string,
                                       sim: Similarity)
    requires ValidSimilarity(sim)
    requires !AnyFound(d.keywords, ProductText(p))
    requires !AnyFound(d.treatmentKeywords, ProductText(p))
    requires !AnyFound(d.relatedProducts, ProductText(p))
    ensures ContextualRelevance(p, d, paragraph, kind, sim) <= 0.055
  {
    var text := ProductText(p);
    CountFoundPositive(d.keywords, text);
    CountFoundPositive(d.treatmentKeywords, text);
    CountFoundPositive(d.relatedProducts, text);
    assert sim(Lower(paragraph), text) <= 1.0;
  }
}
