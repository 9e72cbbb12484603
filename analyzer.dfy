/** The article analysis of products.py (`analyze_text_for_products`): the
    article is cut into paragraphs at blank lines; each paragraph long
    enough, of an intent that may carry products and with skincare topics
    gets the strong ones among its two best-ranked products as
    recommendations, numbered by the paragraph's position (from 1) among
    the non-blank paragraphs. */
module Analyzer {
  import opened Text
  import opened Lexicon
  import opened Classifier
  import opened TopicDetector
  import opened Relevance
  import opened Ranking
  import opened Selector

  /** One recommendation: where it goes (1-based paragraph number and the
      stripped paragraph text), what is recommended and why. */
  datatype Recommendation = Recommendation(
    paragraphIndex: nat,
    paragraphText: string,
    product: ScoredProduct,
    suggestionType: string,
    mainTopics: seq<TopicMatch>,
    contextType: string)

  /** Paragraphs with fewer words than this are skipped. */
  const MinWords: nat := 15
  /** At most this many of a paragraph's products are considered. */
  const PerParagraph: nat := 2
  /** A considered product is recommended only at this relevance or above. */
  const StrongRelevance: real := 0.7

  /** `[p.strip() for p in parts if p.strip()]`. */
  function NonBlankStripped(parts: seq<string>): seq<string> {
    if parts == [] then []
    else
      NonBlankStripped(parts[..|parts| - 1])
      + var q := Strip(parts[|parts| - 1]); if q != [] then [q] else []
  }

  /** The paragraphs of an article: its blank-line-separated blocks,
      stripped, blank ones dropped. */
  function Paragraphs(text: string): seq<string> {
    NonBlankStripped(Split(text, "\n\n"))
  }

  /** The loop over a paragraph's top products: those at StrongRelevance or
      above become recommendations. */
  function StrongOnes(index: nat, paragraph: string, kind: string, topics: seq<TopicMatch>,
                      top: seq<ScoredProduct>): seq<Recommendation>
  {
    if top == [] then []
    else
      var c := top[|top| - 1];
      StrongOnes(index, paragraph, kind, topics, top[..|top| - 1])
      + if c.contextualRelevance >= StrongRelevance
        then [Recommendation(index, paragraph, c, kind, topics, kind)] else []
  }

  /** The recommendations for the paragraph numbered `index`: none for a
      short paragraph, for one that is not to carry products, or for one
      without topics; otherwise the strong ones among its first
      PerParagraph products. */
  function ParagraphRecommendations(paragraphTypes: seq<IntentCategory>, skincareTopics: seq<TopicDomain>, index: nat, paragraph: string, db: seq<Product>,
                                    sim: Similarity): seq<Recommendation>
  {
    if WordCount(paragraph) < MinWords then []
    else
      var paragraphType := Classify(paragraphTypes, paragraph);
      if !paragraphType.shouldRecommend then []
      else
        var topics := Detect(skincareTopics, paragraph);
        if topics == [] then []
        else StrongOnes(index, paragraph, paragraphType.kind, topics,
                        Considered(paragraphTypes, skincareTopics, paragraph, db, sim))
  }

  /** The products a paragraph considers: the first PerParagraph of its
      ranked products. */
  function Considered(paragraphTypes: seq<IntentCategory>, skincareTopics: seq<TopicDomain>, paragraph: string,
                      db: seq<Product>, sim: Similarity): seq<ScoredProduct>
  {
    DetectKnown(skincareTopics, paragraph);
    Take(FindRelevant(skincareTopics, paragraph, Detect(skincareTopics, paragraph),
                      Classify(paragraphTypes, paragraph).kind, db, sim), PerParagraph)
  }

  /** The per-paragraph step for a catalog and a similarity. */
  function Recommender(paragraphTypes: seq<IntentCategory>, skincareTopics: seq<TopicDomain>, db: seq<Product>,
                       sim: Similarity): (nat, string) -> seq<Recommendation> {
    (index: nat, paragraph: string) => ParagraphRecommendations(paragraphTypes, skincareTopics, index, paragraph, db, sim)
  }

  /** The paragraph loop with per-paragraph step `f`: paragraph `i` (from 0)
      is numbered `i + 1`. */
  function RecommendAll(paragraphs: seq<string>, f: (nat, string) -> seq<Recommendation>): seq<Recommendation> {
    if paragraphs == [] then []
    else RecommendAll(paragraphs[..|paragraphs| - 1], f) + f(|paragraphs|, paragraphs[|paragraphs| - 1])
  }

  /** The recommendations for an article. */
  function AnalyzeText(paragraphTypes: seq<IntentCategory>, skincareTopics: seq<TopicDomain>, text: string,
                       db: seq<Product>, sim: Similarity): seq<Recommendation> {
    RecommendAll(Paragraphs(text), Recommender(paragraphTypes, skincareTopics, db, sim))
  }

  /** The body of the paragraph loop of `analyze_text_for_products`: the
      three skips, then the strong ones among the first PerParagraph
      products. */
  method RecommendForParagraph(paragraphTypes: seq<IntentCategory>, skincareTopics: seq<TopicDomain>,
                               index: nat, paragraph: string, produktyDb: seq<Product>, sim: Similarity)
    returns (found: seq<Recommendation>)
    ensures found == ParagraphRecommendations(paragraphTypes, skincareTopics, index, paragraph, produktyDb, sim)
  {
    found := [];
    if WordCount(paragraph) < MinWords {
      return;
    }
    var paragraphType := ClassifyParagraphType(paragraphTypes, paragraph);
    if !paragraphType.shouldRecommend {
      return;
    }
    var paragraphTopics := IdentifyTreatmentContext(skincareTopics, paragraph);
    if paragraphTopics == [] {
      return;
    }
    DetectKnown(skincareTopics, paragraph);
    var relevantProducts := FindContextuallyRelevantProducts(skincareTopics, paragraph, paragraphTopics, paragraphType,
                                                             produktyDb, sim);
    var top := Take(relevantProducts, PerParagraph);
    var k := 0;
    while k < |top|
      invariant 0 <= k <= |top|
      invariant found == StrongOnes(index, paragraph, paragraphType.kind, paragraphTopics, top[..k])
    {
      var product := top[k];
      if product.contextualRelevance >= StrongRelevance {
        found := found + [Recommendation(index, paragraph, product, paragraphType.kind, paragraphTopics,
                                         paragraphType.kind)];
      }
      assert top[..k + 1][..k] == top[..k];
      k := k + 1;
    }
    assert top[..k] == top;
  }

  /** The paragraph loop of `analyze_text_for_products`, against the
      categories `paragraphTypes` and the domains `skincareTopics`. */
  method AnalyzeTextWith(paragraphTypes: seq<IntentCategory>, skincareTopics: seq<TopicDomain>, text: string,
                         produktyDb: seq<Product>, sim: Similarity)
    returns (recommendations: seq<Recommendation>)
    ensures recommendations == AnalyzeText(paragraphTypes, skincareTopics, text, produktyDb, sim)
  {
    var paragraphs := Paragraphs(text);
    ghost var f := Recommender(paragraphTypes, skincareTopics, produktyDb, sim);
    recommendations := [];
    var i := 0;
    while i < |paragraphs|
      invariant 0 <= i <= |paragraphs|
      invariant recommendations == RecommendAll(paragraphs[..i], f)
    {
      var found := RecommendForParagraph(paragraphTypes, skincareTopics, i + 1, paragraphs[i], produktyDb, sim);
      assert found == f(i + 1, paragraphs[i]);
      assert paragraphs[..i + 1][..i] == paragraphs[..i];
      assert RecommendAll(paragraphs[..i + 1], f) == RecommendAll(paragraphs[..i], f) + f(i + 1, paragraphs[i]);
      recommendations := recommendations + found;
      i := i + 1;
    }
    assert paragraphs[..i] == paragraphs;
  }

  /** `analyze_text_for_products`: the loop run with the source's two
      tables; the skipped-paragraph messages are not modelled. */
  method AnalyzeTextForProducts(text: string, produktyDb: seq<Product>, sim: Similarity)
    returns (recommendations: seq<Recommendation>)
    ensures recommendations == AnalyzeText(ParagraphTypes, SkincareTopics, text, produktyDb, sim)
  {
    recommendations := AnalyzeTextWith(ParagraphTypes, SkincareTopics, text, produktyDb, sim);
  }

  /** Every paragraph is non-empty and starts and ends with a non-space. */
  lemma {:induction false} NonBlankStrippedShape(parts: seq<string>)
    ensures forall q :: q in NonBlankStripped(parts) ==> q != [] && !IsSpace(q[0]) && !IsSpace(q[|q| - 1])
  {
    if parts != [] {
      NonBlankStrippedShape(parts[..|parts| - 1]);
    }
  }

  /** The strong ones: drawn from `top` in order, each at StrongRelevance
      or above, and carrying the paragraph's number, text, kind and topics. */
  lemma {:induction false} StrongOnesSound(index: nat, paragraph: string, kind: string,
                                           topics: seq<TopicMatch>, top: seq<ScoredProduct>)
    ensures |StrongOnes(index, paragraph, kind, topics, top)| <= |top|
    ensures forall r :: r in StrongOnes(index, paragraph, kind, topics, top) ==>
              && r == Recommendation(index, paragraph, r.product, kind, topics, kind)
              && r.product in top
              && r.product.contextualRelevance >= StrongRelevance
  {
    if top != [] {
      StrongOnesSound(index, paragraph, kind, topics, top[..|top| - 1]);
    }
  }

  /** Conversely, every product of `top` at StrongRelevance or above
      becomes a recommendation. */
  lemma {:induction false} StrongOnesComplete(index: nat, paragraph: string, kind: string,
                                              topics: seq<TopicMatch>, top: seq<ScoredProduct>)
    ensures forall c :: c in top && c.contextualRelevance >= StrongRelevance ==>
              Recommendation(index, paragraph, c, kind, topics, kind) in StrongOnes(index, paragraph, kind, topics, top)
  {
    if top != [] {
      var init := top[..|top| - 1];
      StrongOnesComplete(index, paragraph, kind, topics, init);
      assert top == init + [top[|top| - 1]];
    }
  }

  /** What a paragraph yields: at most PerParagraph recommendations, only
      for a paragraph of MinWords words or more that is to carry products
      and has topics, each a catalog product among the paragraph's ranked
      products with relevance at least StrongRelevance, and each carrying
      the paragraph's number, text, classification and topics. */
  lemma ParagraphRecommendationsSound(paragraphTypes: seq<IntentCategory>, skincareTopics: seq<TopicDomain>,
                                      index: nat, paragraph: string, db: seq<Product>, sim: Similarity)
    ensures |ParagraphRecommendations(paragraphTypes, skincareTopics, index, paragraph, db, sim)| <= PerParagraph
    ensures forall r :: r in ParagraphRecommendations(paragraphTypes, skincareTopics, index, paragraph, db, sim) ==>
              && r.paragraphIndex == index
              && r.paragraphText == paragraph
              && WordCount(paragraph) >= MinWords
              && Classify(paragraphTypes, paragraph).shouldRecommend
              && r.suggestionType == Classify(paragraphTypes, paragraph).kind
              && r.contextType == Classify(paragraphTypes, paragraph).kind
              && r.mainTopics == Detect(skincareTopics, paragraph) && r.mainTopics != []
              && KnownTopics(skincareTopics, r.mainTopics)
              && r.product in FindRelevant(skincareTopics, paragraph, r.mainTopics, r.contextType, db, sim)
              && r.product.product in db
              && r.product.contextualRelevance >= StrongRelevance
  {
    if WordCount(paragraph) >= MinWords && Classify(paragraphTypes, paragraph).shouldRecommend && Detect(skincareTopics, paragraph) != [] {
      var kind := Classify(paragraphTypes, paragraph).kind;
      var topics := Detect(skincareTopics, paragraph);
      DetectKnown(skincareTopics, paragraph);
      var ranked := FindRelevant(skincareTopics, paragraph, topics, kind, db, sim);
      var top := Considered(paragraphTypes, skincareTopics, paragraph, db, sim);
      StrongOnesSound(index, paragraph, kind, topics, top);
      FindRelevantSound(skincareTopics, paragraph, topics, kind, db, sim);
      forall c | c in top ensures c in ranked {
        var j :| 0 <= j < |top| && top[j] == c;
        assert ranked[j] == c;
      }
    }
  }

  /** Conversely, a paragraph of MinWords words or more that is to carry
      products and has topics gets a recommendation for every one of its
      considered products at StrongRelevance or above. */
  lemma ParagraphRecommendationsComplete(paragraphTypes: seq<IntentCategory>, skincareTopics: seq<TopicDomain>,
                                         index: nat, paragraph: string, db: seq<Product>, sim: Similarity)
    requires WordCount(paragraph) >= MinWords
    requires Classify(paragraphTypes, paragraph).shouldRecommend
    requires Detect(skincareTopics, paragraph) != []
    ensures forall c :: c in Considered(paragraphTypes, skincareTopics, paragraph, db, sim)
                        && c.contextualRelevance >= StrongRelevance ==>
              Recommendation(index, paragraph, c, Classify(paragraphTypes, paragraph).kind,
                             Detect(skincareTopics, paragraph), Classify(paragraphTypes, paragraph).kind)
              in ParagraphRecommendations(paragraphTypes, skincareTopics, index, paragraph, db, sim)
  {
    StrongOnesComplete(index, paragraph, Classify(paragraphTypes, paragraph).kind, Detect(skincareTopics, paragraph),
                       Considered(paragraphTypes, skincareTopics, paragraph, db, sim));
  }

  /** A per-paragraph step that yields at most PerParagraph
      recommendations, each numbered with the paragraph's number. */
  ghost predicate NumbersItsOwn(f: (nat, string) -> seq<Recommendation>) {
    forall index: nat, paragraph: string :: |f(index, paragraph)| <= PerParagraph
      && forall r :: r in f(index, paragraph) ==> r.paragraphIndex == index
  }

  /** The step of `analyze_text_for_products` numbers its own
      recommendations. */
  lemma RecommenderNumbersItsOwn(paragraphTypes: seq<IntentCategory>, skincareTopics: seq<TopicDomain>,
                                 db: seq<Product>, sim: Similarity)
    ensures NumbersItsOwn(Recommender(paragraphTypes, skincareTopics, db, sim))
  {
    forall index: nat, paragraph: string
      ensures |Recommender(paragraphTypes, skincareTopics, db, sim)(index, paragraph)| <= PerParagraph
      ensures forall r :: r in Recommender(paragraphTypes, skincareTopics, db, sim)(index, paragraph) ==> r.paragraphIndex == index
    {
      ParagraphRecommendationsSound(paragraphTypes, skincareTopics, index, paragraph, db, sim);
    }
  }

  /** With a step that numbers its own recommendations, the paragraph loop
      yields them paragraph by paragraph in order: each is one of its
      paragraph's, numbers never decrease, and no number occurs more than
      PerParagraph times. */
  lemma {:induction false} RecommendAllShape(paragraphs: seq<string>, f: (nat, string) -> seq<Recommendation>)
    requires NumbersItsOwn(f)
    ensures forall r :: r in RecommendAll(paragraphs, f) ==>
              1 <= r.paragraphIndex <= |paragraphs|
              && r in f(r.paragraphIndex, paragraphs[r.paragraphIndex - 1])
    ensures forall i, j :: 0 <= i < j < |RecommendAll(paragraphs, f)| ==>
              RecommendAll(paragraphs, f)[i].paragraphIndex <= RecommendAll(paragraphs, f)[j].paragraphIndex
    ensures forall i :: 0 <= i && i + PerParagraph < |RecommendAll(paragraphs, f)| ==>
              RecommendAll(paragraphs, f)[i].paragraphIndex
              < RecommendAll(paragraphs, f)[i + PerParagraph].paragraphIndex
  {
    if paragraphs != [] {
      var n := |paragraphs|;
      var init := paragraphs[..n - 1];
      RecommendAllShape(init, f);
      var a := RecommendAll(init, f);
      var b := f(n, paragraphs[n - 1]);
      var all := RecommendAll(paragraphs, f);
      assert all == a + b;
      forall i | 0 <= i < |all|
        ensures 1 <= all[i].paragraphIndex <= n
        ensures all[i] in f(all[i].paragraphIndex, paragraphs[all[i].paragraphIndex - 1])
        ensures i < |a| ==> all[i].paragraphIndex < n
        ensures i >= |a| ==> all[i].paragraphIndex == n
      {
        if i < |a| {
          assert all[i] == a[i];
          assert paragraphs[all[i].paragraphIndex - 1] == init[all[i].paragraphIndex - 1];
        } else {
          assert all[i] == b[i - |a|];
        }
      }
    }
  }

  /** The recommendations for an article: each belongs to one of its
      paragraphs (numbered from 1) and is one of that paragraph's
      recommendations; they come in paragraph order, at most PerParagraph
      per paragraph. */
  lemma AnalyzeTextSound(paragraphTypes: seq<IntentCategory>, skincareTopics: seq<TopicDomain>, text: string, db: seq<Product>, sim: Similarity)
    ensures forall r :: r in AnalyzeText(paragraphTypes, skincareTopics, text, db, sim) ==>
              1 <= r.paragraphIndex <= |Paragraphs(text)|
              && r.paragraphText == Paragraphs(text)[r.paragraphIndex - 1]
              && r.paragraphText != []
              && WordCount(r.paragraphText) >= MinWords
              && Classify(paragraphTypes, r.paragraphText).shouldRecommend
              && r.mainTopics == Detect(skincareTopics, r.paragraphText) && r.mainTopics != []
              && r.product.product in db
              && r.product.contextualRelevance >= StrongRelevance
    ensures forall i, j :: 0 <= i < j < |AnalyzeText(paragraphTypes, skincareTopics, text, db, sim)| ==>
              AnalyzeText(paragraphTypes, skincareTopics, text, db, sim)[i].paragraphIndex <= AnalyzeText(paragraphTypes, skincareTopics, text, db, sim)[j].paragraphIndex
    ensures forall i :: 0 <= i && i + PerParagraph < |AnalyzeText(paragraphTypes, skincareTopics, text, db, sim)| ==>
              AnalyzeText(paragraphTypes, skincareTopics, text, db, sim)[i].paragraphIndex < AnalyzeText(paragraphTypes, skincareTopics, text, db, sim)[i + PerParagraph].paragraphIndex
  {
    var ps := Paragraphs(text);
    var f := Recommender(paragraphTypes, skincareTopics, db, sim);
    var all := RecommendAll(ps, f);
    assert all == AnalyzeText(paragraphTypes, skincareTopics, text, db, sim);
    RecommenderNumbersItsOwn(paragraphTypes, skincareTopics, db, sim);
    RecommendAllShape(ps, f);
    NonBlankStrippedShape(Split(text, "\n\n"));
    forall r | r in all
      ensures 1 <= r.paragraphIndex <= |ps|
      ensures r.paragraphText == ps[r.paragraphIndex - 1] && r.paragraphText != []
      ensures WordCount(r.paragraphText) >= MinWords
      ensures Classify(paragraphTypes, r.paragraphText).shouldRecommend
      ensures r.mainTopics == Detect(skincareTopics, r.paragraphText) && r.mainTopics != []
      ensures r.product.product in db
      ensures r.product.contextualRelevance >= StrongRelevance
    {
      var q := ps[r.paragraphIndex - 1];
      assert r in f(r.paragraphIndex, q);
      assert f(r.paragraphIndex, q) == ParagraphRecommendations(paragraphTypes, skincareTopics, r.paragraphIndex, q, db, sim);
      ParagraphRecommendationsSound(paragraphTypes, skincareTopics, r.paragraphIndex, ps[r.paragraphIndex - 1], db, sim);
    }
  }

  /** The paragraph loop keeps every recommendation of every paragraph:
      those of paragraph `k` (from 1) are among the loop's. */
  lemma {:induction false} RecommendAllComplete(paragraphs: seq<string>, f: (nat, string) -> seq<Recommendation>, k: nat)
    requires 1 <= k <= |paragraphs|
    ensures forall r :: r in f(k, paragraphs[k - 1]) ==> r in RecommendAll(paragraphs, f)
  {
    var n := |paragraphs|;
    var init := paragraphs[..n - 1];
    assert RecommendAll(paragraphs, f) == RecommendAll(init, f) + f(n, paragraphs[n - 1]);
    if k < n {
      RecommendAllComplete(init, f, k);
      assert init[k - 1] == paragraphs[k - 1];
    }
  }

  /** Conversely, every recommendation of paragraph `k` appears in the
      article's, and so does every considered product at StrongRelevance or
      above of a paragraph of MinWords words or more that is to carry
      products and has topics. */
  lemma AnalyzeTextComplete(paragraphTypes: seq<IntentCategory>, skincareTopics: seq<TopicDomain>, text: string,
                            db: seq<Product>, sim: Similarity, k: nat)
    requires 1 <= k <= |Paragraphs(text)|
    ensures forall r :: r in ParagraphRecommendations(paragraphTypes, skincareTopics, k, Paragraphs(text)[k - 1], db, sim) ==>
              r in AnalyzeText(paragraphTypes, skincareTopics, text, db, sim)
    ensures var q := Paragraphs(text)[k - 1];
            WordCount(q) >= MinWords && Classify(paragraphTypes, q).shouldRecommend && Detect(skincareTopics, q) != [] ==>
            forall c :: c in Considered(paragraphTypes, skincareTopics, q, db, sim)
                        && c.contextualRelevance >= StrongRelevance ==>
              Recommendation(k, q, c, Classify(paragraphTypes, q).kind, Detect(skincareTopics, q),
                             Classify(paragraphTypes, q).kind)
              in AnalyzeText(paragraphTypes, skincareTopics, text, db, sim)
  {
    var q := Paragraphs(text)[k - 1];
    var f := Recommender(paragraphTypes, skincareTopics, db, sim);
    RecommendAllComplete(Paragraphs(text), f, k);
    assert f(k, q) == ParagraphRecommendations(paragraphTypes, skincareTopics, k, q, db, sim);
    if WordCount(q) >= MinWords && Classify(paragraphTypes, q).shouldRecommend && Detect(skincareTopics, q) != [] {
      ParagraphRecommendationsComplete(paragraphTypes, skincareTopics, k, q, db, sim);
    }
  }

  /** An empty catalog yields no recommendations. */
  lemma {:induction false} EmptyCatalogNothing(paragraphTypes: seq<IntentCategory>, skincareTopics: seq<TopicDomain>,
                                               paragraphs: seq<string>, sim: Similarity)
    ensures RecommendAll(paragraphs, Recommender(paragraphTypes, skincareTopics, [], sim)) == []
  {
    if paragraphs != [] {
      EmptyCatalogNothing(paragraphTypes, skincareTopics, paragraphs[..|paragraphs| - 1], sim);
      ParagraphRecommendationsSound(paragraphTypes, skincareTopics, |paragraphs|, paragraphs[|paragraphs| - 1], [], sim);
    }
  }

  /** A blank article (empty or all whitespace) has no paragraphs. */
  lemma BlankTextNoParagraphs(text: string)
    requires AllSpace(text)
    ensures Paragraphs(text) == []
  {
    var parts := Split(text, "\n\n");
    SplitFromChars(text, "\n\n", []);
    forall p | p in parts ensures Strip(p) == [] {
      forall k | 0 <= k < |p| ensures IsSpace(p[k]) {
        assert p[k] in p;
        var j :| 0 <= j < |text| && text[j] == p[k];
      }
      StripEmptyIffAllSpace(p);
    }
    AllBlankStripped(parts);
  }

  lemma {:induction false} AllBlankStripped(parts: seq<string>)
    requires forall p :: p in parts ==> Strip(p) == []
    ensures NonBlankStripped(parts) == []
  {
    if parts != [] {
      AllBlankStripped(parts[..|parts| - 1]);
      assert parts[|parts| - 1] in parts;
    }
  }

  /** A blank article or an empty catalog yields no recommendations. */
  lemma AnalyzeTextEmpty(paragraphTypes: seq<IntentCategory>, skincareTopics: seq<TopicDomain>, text: string, db: seq<Product>, sim: Similarity)
    requires AllSpace(text) || db == []
    ensures AnalyzeText(paragraphTypes, skincareTopics, text, db, sim) == []
  {
    if AllSpace(text) {
      BlankTextNoParagraphs(text);
    } else {
      EmptyCatalogNothing(paragraphTypes, skincareTopics, Paragraphs(text), sim);
    }
  }
}
