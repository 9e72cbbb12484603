/** The paragraph classifier of products.py (`classify_paragraph_type`):
    every intent category is scored by the distinct positive and exclusion
    keywords the lower-cased paragraph contains, the first category with a
    strictly higher score than everything before it wins, and a paragraph
    that names symptoms together with a remedy is treated as a treatment
    paragraph whatever the scores say. */
module Classifier {
  import opened Text
  import opened Lexicon

  datatype Classification = Classification(kind: string, score: real, shouldRecommend: bool)

  /** The starting point of the scoring loop: no category, score 0. */
  const Unknown := Classification("unknown", 0.0, false)

  /** Words that mark a paragraph as talking about symptoms. */
  const SymptomWords: seq<string> := ["objawy", "symptomy"]

  /** Words that mark a paragraph as offering a remedy. */
  const SolutionWords: seq<string> := ["można", "warto", "stosować", "pomocne", "leczenie"]

  /** `positive - 1.5 * negative` for one category. */
  function CategoryScore(c: IntentCategory, low: string): real {
    CountFound(c.keywords, low) as real - 1.5 * CountFound(c.excludeKeywords, low) as real
  }

  /** The classification that names category `c`. */
  function Pick(c: IntentCategory, low: string): Classification {
    Classification(c.name, CategoryScore(c, low), c.shouldRecommend)
  }

  /** The scoring loop run over `cats`: a category replaces the current best
      only when its score is strictly higher. */
  function BestOf(cats: seq<IntentCategory>, low: string): Classification {
    if cats == [] then Unknown
    else
      var best := BestOf(cats[..|cats| - 1], low);
      var c := cats[|cats| - 1];
      if CategoryScore(c, low) > best.score then Pick(c, low) else best
  }

  /** Category `k` scores above 0, strictly above every earlier category and
      at least as high as every later one. */
  predicate IsFirstBest(cats: seq<IntentCategory>, low: string, k: int) {
    && 0 <= k < |cats|
    && CategoryScore(cats[k], low) > 0.0
    && (forall j :: 0 <= j < k ==> CategoryScore(cats[j], low) < CategoryScore(cats[k], low))
    && (forall j :: k < j < |cats| ==> CategoryScore(cats[j], low) <= CategoryScore(cats[k], low))
  }

  /** Symptoms and a remedy are both mentioned. */
  predicate OverrideApplies(low: string) {
    AnyFound(SymptomWords, low) && AnyFound(SolutionWords, low)
  }

  /** The classification of a paragraph against the categories
      `paragraphTypes` (the source's PARAGRAPH_TYPES). */
  function Classify(paragraphTypes: seq<IntentCategory>, paragraph: string): Classification {
    var low := Lower(paragraph);
    var best := BestOf(paragraphTypes, low);
    if OverrideApplies(low) then best.(kind := "treatment", shouldRecommend := true) else best
  }

  /** `classify_paragraph_type`: the scoring loop, then the override. */
  method ClassifyParagraphType(paragraphTypes: seq<IntentCategory>, paragraph: string)
    returns (best: Classification)
    ensures best == Classify(paragraphTypes, paragraph)
  {
    var low := Lower(paragraph);
    best := Unknown;
    var i := 0;
    while i < |paragraphTypes|
      invariant 0 <= i <= |paragraphTypes|
      invariant best == BestOf(paragraphTypes[..i], low)
    {
      var c := paragraphTypes[i];
      var positive := CountFound(c.keywords, low);
      var negative := CountFound(c.excludeKeywords, low);
      var score := positive as real - negative as real * 1.5;
      if score > best.score {
        best := Classification(c.name, score, c.shouldRecommend);
      }
      assert paragraphTypes[..i + 1][..i] == paragraphTypes[..i];
      i := i + 1;
    }
    assert paragraphTypes[..i] == paragraphTypes;
    if AnyFound(SymptomWords, low) && AnyFound(SolutionWords, low) {
      best := best.(shouldRecommend := true, kind := "treatment");
    }
  }

  /** Scores of every category of `cats`. */
  predicate AllAtMost(cats: seq<IntentCategory>, low: string, bound: real) {
    forall j :: 0 <= j < |cats| ==> CategoryScore(cats[j], low) <= bound
  }

  lemma KeepFirstBest(cats: seq<IntentCategory>, low: string, k: int)
    requires cats != [] && IsFirstBest(cats[..|cats| - 1], low, k)
    requires CategoryScore(cats[|cats| - 1], low) <= CategoryScore(cats[k], low)
    ensures IsFirstBest(cats, low, k)
  {
    assert forall j :: 0 <= j < |cats| - 1 ==> cats[j] == cats[..|cats| - 1][j];
  }

  lemma NewFirstBest(cats: seq<IntentCategory>, low: string, bound: real)
    requires cats != [] && AllAtMost(cats[..|cats| - 1], low, bound)
    requires 0.0 <= bound < CategoryScore(cats[|cats| - 1], low)
    ensures IsFirstBest(cats, low, |cats| - 1)
  {
    assert forall j :: 0 <= j < |cats| - 1 ==> cats[j] == cats[..|cats| - 1][j];
  }

  lemma FirstBestBounds(cats: seq<IntentCategory>, low: string, k: int)
    requires IsFirstBest(cats, low, k)
    ensures AllAtMost(cats, low, CategoryScore(cats[k], low))
  {
  }

  /** The scoring loop ends with `unknown` exactly when no category scores
      above 0; otherwise it ends with the first category of highest score. */
  lemma {:induction false} BestOfIsFirstBest(cats: seq<IntentCategory>, low: string)
    ensures BestOf(cats, low) == Unknown <==> AllAtMost(cats, low, 0.0)
    ensures BestOf(cats, low) != Unknown
        ==> exists k :: IsFirstBest(cats, low, k) && BestOf(cats, low) == Pick(cats[k], low)
  {
    if cats != [] {
      var n := |cats| - 1;
      var init := cats[..n];
      BestOfIsFirstBest(init, low);
      var best := BestOf(init, low);
      var s := CategoryScore(cats[n], low);
      assert forall j :: 0 <= j < n ==> cats[j] == init[j];
      if best == Unknown {
        if s > 0.0 {
          NewFirstBest(cats, low, 0.0);
        }
      } else {
        var k :| IsFirstBest(init, low, k) && best == Pick(init[k], low);
        FirstBestBounds(init, low, k);
        if s > best.score {
          NewFirstBest(cats, low, best.score);
        } else {
          KeepFirstBest(cats, low, k);
        }
      }
    }
  }

  /** Without the override, a paragraph is `unknown` and not recommendable
      exactly when no category scores above 0. */
  lemma ClassifyUnknown(paragraphTypes: seq<IntentCategory>, paragraph: string)
    requires !OverrideApplies(Lower(paragraph))
    ensures Classify(paragraphTypes, paragraph) == Unknown <==> AllAtMost(paragraphTypes, Lower(paragraph), 0.0)
  {
    BestOfIsFirstBest(paragraphTypes, Lower(paragraph));
  }

  /** Without the override the winner is the first category of strictly
      highest score: on equal scores the earlier category is kept. */
  lemma ClassifyPicksFirstBest(paragraphTypes: seq<IntentCategory>, paragraph: string)
    requires !OverrideApplies(Lower(paragraph))
    requires !AllAtMost(paragraphTypes, Lower(paragraph), 0.0)
    ensures exists k :: IsFirstBest(paragraphTypes, Lower(paragraph), k)
                     && Classify(paragraphTypes, paragraph) == Pick(paragraphTypes[k], Lower(paragraph))
  {
    BestOfIsFirstBest(paragraphTypes, Lower(paragraph));
  }

  /** Symptoms plus a remedy make the paragraph a recommendable treatment
      paragraph; the score of the scoring loop is kept. */
  lemma ClassifyOverride(paragraphTypes: seq<IntentCategory>, paragraph: string)
    requires AnyFound(SymptomWords, Lower(paragraph)) && AnyFound(SolutionWords, Lower(paragraph))
    ensures Classify(paragraphTypes, paragraph).kind == "treatment"
    ensures Classify(paragraphTypes, paragraph).shouldRecommend
    ensures Classify(paragraphTypes, paragraph).score == BestOf(paragraphTypes, Lower(paragraph)).score
  {
  }

  /** The symptom words are written in lower case. */
  lemma SymptomWordsLowered()
    ensures AllLowered(SymptomWords)
  {
    assert NoCapitals(SymptomWords);
    NoCapitalsLowered(SymptomWords);
  }

  /** The remedy words are written in lower case. */
  lemma SolutionWordsLowered()
    ensures AllLowered(SolutionWords)
  {
    assert NoCapitals(SolutionWords);
    NoCapitalsLowered(SolutionWords);
  }

  /** A paragraph that contains a symptom word and a remedy word as written
      is a recommendable treatment paragraph, whatever the case of the rest
      of the paragraph. */
  lemma OverrideIgnoresCase(paragraphTypes: seq<IntentCategory>, paragraph: string, s: string, w: string)
    requires s in SymptomWords && Contains(paragraph, s)
    requires w in SolutionWords && Contains(paragraph, w)
    ensures Classify(paragraphTypes, paragraph).kind == "treatment"
    ensures Classify(paragraphTypes, paragraph).shouldRecommend
  {
    SymptomWordsLowered();
    SolutionWordsLowered();
    LowerKeepsLoweredHit(paragraph, s);
    LowerKeepsLoweredHit(paragraph, w);
    ClassifyOverride(paragraphTypes, paragraph);
  }

  /** No category is called `unknown`, and the only one that forbids
      recommending is `symptoms_only`. */
  predicate FlagsFollowNames(cats: seq<IntentCategory>) {
    forall k :: 0 <= k < |cats| ==>
      cats[k].name != "unknown" && (!cats[k].shouldRecommend <==> cats[k].name == "symptoms_only")
  }

  /** The source's categories have their flags follow their names. */
  lemma ParagraphTypesFlagsFollowNames()
    ensures FlagsFollowNames(ParagraphTypes)
  {
    var t := ParagraphTypes;
    forall k | 0 <= k < |t|
      ensures t[k].name != "unknown" && (!t[k].shouldRecommend <==> t[k].name == "symptoms_only")
    {
      if k == 0 {
        assert |t[0].name| != |"unknown"|;
      } else {
        assert |t[k].name| != |"unknown"| && |t[k].name| != |"symptoms_only"|;
      }
    }
  }

  /** A paragraph is recommendable exactly when it is classified as anything
      other than `unknown` or `symptoms_only`. */
  lemma ClassifyRecommendIffKind(paragraphTypes: seq<IntentCategory>, paragraph: string)
    requires FlagsFollowNames(paragraphTypes)
    ensures !Classify(paragraphTypes, paragraph).shouldRecommend
        <==> Classify(paragraphTypes, paragraph).kind == "unknown"
             || Classify(paragraphTypes, paragraph).kind == "symptoms_only"
  {
    var low := Lower(paragraph);
    BestOfIsFirstBest(paragraphTypes, low);
    var best := BestOf(paragraphTypes, low);
    assert |"treatment"| != |"unknown"| && |"treatment"| != |"symptoms_only"|;
    if best != Unknown {
      var k :| IsFirstBest(paragraphTypes, low, k) && best == Pick(paragraphTypes[k], low);
    }
  }
}
