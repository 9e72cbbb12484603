# Contextual product recommender and editor text converters, in Dafny

This project models the core of a Polish skincare-article generator. It
covers the recommendation pipeline of `products.py` and the plain-text and
markdown converters of `generator.py`.

The pipeline runs in this order:

- `analyze_text_for_products` cuts an article into paragraphs. It skips
  paragraphs with fewer than 15 words.
- `classify_paragraph_type` gives each remaining paragraph an intent
  (symptoms only, treatment, skincare, prevention or advice), scoring
  keyword hits against the `PARAGRAPH_TYPES` table. The intent decides
  whether the paragraph may carry a product.
- `identify_treatment_context` finds the skincare topics of the paragraph
  in the `SKINCARE_TOPICS` table.
- `calculate_contextual_product_relevance` scores every catalog product per
  topic.
- `find_contextually_relevant_products` boosts each score for treatment
  context, weights it by topic strength and keeps the best. It then keeps
  the products above 0.5 and returns the top three.
- Of those three, at most the first two become recommendations, and only
  when their relevance is at least 0.7.

`find_matching_products` is the simpler similarity-threshold matcher. On
the editor side, `plain_text_to_markdown` turns plain lines into markdown
lines, deciding headers with `is_likely_header`. `markdown_to_plain_text`
goes the other way.

Every loop of the source is a `method` with loop invariants. Each method is
proved equal to a specification function. The properties the code promises
are proved as lemmas about those functions. The modules are:

- `Text`: Python's `in`, `strip`, `split`, `join`, `split()` word count and
  `lower`.
- `Ranking`: the stable `sort(reverse=True)` and the `[:n]` slice.
- `Lexicon`: the two tables.
- `Classifier`, `TopicDetector`, `Relevance`, `Selector`, `Matcher` and
  `Analyzer`: the pipeline.
- `Markdown`: `generator.py`.

How the source is represented:

- The two tables are parameters of the pipeline functions. The entry point
  `Analyzer.AnalyzeTextForProducts` passes the literal tables
  `Lexicon.ParagraphTypes` and `Lexicon.SkincareTopics`. The facts the
  general lemmas assume of a table are proved about the literal tables:
  distinct domain names (`Lexicon.SkincareTopicNamesDistinct`), the
  recommend flags (`Classifier.ParagraphTypesFlagsFollowNames`) and
  keyword lists without repeats (`Lexicon.ParagraphTypesListsDistinct`,
  `Lexicon.SkincareTopicsListsDistinct`), which is what
  `Text.CountFoundIsDistinctHits` needs.
- The TF-IDF similarity is a function parameter `sim`.
  `Relevance.ValidSimilarity` says it stays in [0, 1].
- The phrase highlighter `add_smart_formatting` is a function parameter
  `smart`.

Two behaviours of the code worth knowing:

- The boosted and weighted relevance in `find_contextually_relevant_products`
  is not clamped a second time. It is at most 1.2, and it can exceed 1
  only with treatment context (`Selector.WeightedBounds`). A relevance of 1
  for a topic of strength 1 with treatment context is weighted to exactly
  1.2 (`Selector.BoostedReachesBound`).
- `paragraph_index` is 1 + the position among the non-blank paragraphs. A
  paragraph that is skipped still takes up a number.

## Model

| member | source | states |
|---|---|---|
| Text.Strip | products.py:83 | `strip()` leaves no whitespace at either end |
| Text.StripIsInfix | generator.py:286 | the stripped line is the part of the line between a whitespace prefix and a whitespace suffix |
| Text.StripEmptyIffAllSpace | products.py:83 | `p.strip()` is empty exactly when `p` is all whitespace |
| Text.CountFoundPositive | products.py:174 | at least one hit exactly when some keyword occurs |
| Text.CountFoundIsDistinctHits | products.py:138 | `sum(1 for keyword ... if keyword in text)` counts the distinct keywords that occur, for a keyword list without repeats |
| Text.SplitExcludes | generator.py:281 | no part of `split('\n')` contains a line break |
| Text.SplitJoin | generator.py:313 | splitting a `'\n'.join` of lines without line breaks gives the same lines back |
| Text.SplitFromChars | products.py:83 | every character of a split part comes from the split text |
| Text.NoWordsIffAllSpace | products.py:88 | `len(p.split())` is 0 exactly when `p` is all whitespace |
| Text.Lower | products.py:128 | `lower()` keeps the length and maps each code point on its own; its meaning for keyword tests is stated by `Text.ContainsLowerIff` and `Text.LowerKeepsLoweredHit` |
| Text.LowerIdempotent | products.py:364-371 | lowering an already-lowered text changes nothing, so the TF-IDF vectorizer's default lower-casing of `content_lower` and `product_text` leaves them as they are |
| Text.LoweredIffFixed | products.py:128 | a text has no capital LowerChar maps exactly when lowering leaves it unchanged |
| Text.ContainsLowerIff | products.py:128-138 | `k in s.lower()` holds exactly when some piece of `s` lower-cases to `k` |
| Text.LowerKeepsLoweredHit | products.py:128-138 | a lower-case keyword that occurs in the text as written still occurs in the lowered text |
| Ranking.Insert | products.py:225 | inserting into a sorted list adds exactly the new element |
| Ranking.SortDesc | products.py:225 | the sorted list is a permutation of its input |
| Ranking.InsertSorted | products.py:225 | inserting keeps a list sorted by descending key |
| Ranking.SortDescSorted | products.py:225 | `sort(key, reverse=True)` yields a list sorted by descending key |
| Ranking.InsertWithKey | products.py:225 | the element is placed before every element with the same key and keeps the order of the rest |
| Ranking.SortDescStable | products.py:225 | the sort is stable: elements with equal keys keep their input order |
| Ranking.Take | products.py:227 | `[:n]` is the prefix of length `min(n, len)`: the whole list when it has at most `n` elements, exactly `n` otherwise |
| Ranking.TakeOfSorted | products.py:227 | the first `n` of a sorted list are sorted and rank at least as high as every dropped element |
| Ranking.TopComplete | products.py:225-227 | an element is among the top `n`, or `n` elements rank at least as high as it |
| Ranking.TopFrom | products.py:225-227 | the top `n` are elements of the input |
| Lexicon.FindTopic | products.py:234 | `SKINCARE_TOPICS[topic]` returns a domain with that name, and fails only when no domain has it |
| Lexicon.FindTopicByName | products.py:234 | with distinct names, every domain is found by its own name |
| Lexicon.SkincareTopicNamesDistinct | products.py:47-78 | the six domain names are distinct |
| Lexicon.ParagraphTypesListsDistinct | products.py:13-45 | no keyword or exclusion list of `PARAGRAPH_TYPES` repeats an entry |
| Lexicon.SkincareTopicsListsDistinct | products.py:47-78 | no keyword, treatment or product-type list of `SKINCARE_TOPICS` repeats an entry |
| Classifier.ClassifyParagraphType | products.py:126-159 | the scoring loop and the override compute `Classify` |
| Classifier.KeepFirstBest | products.py:146-151 | a category that scores no higher does not replace the best so far |
| Classifier.NewFirstBest | products.py:146-151 | a category that scores strictly above 0 and above every earlier one becomes the best |
| Classifier.FirstBestBounds | products.py:146-151 | no category scores above the chosen one |
| Classifier.BestOfIsFirstBest | products.py:130-151 | the loop yields `unknown` exactly when no category scores above 0; otherwise it yields the first category with the top score |
| Classifier.ClassifyUnknown | products.py:130-159 | without the override, the result is `unknown` exactly when no category scores above 0 |
| Classifier.ClassifyPicksFirstBest | products.py:136-159 | without the override, the result is the first category with the highest positive score |
| Classifier.ClassifyOverride | products.py:153-157 | a paragraph that mentions symptoms and a remedy is `treatment` and recommendable, and keeps the loop's score |
| Classifier.SymptomWordsLowered | products.py:154 | the override's symptom words are written in lower case |
| Classifier.SolutionWordsLowered | products.py:155 | the override's remedy words are written in lower case |
| Classifier.OverrideIgnoresCase | products.py:153-157 | a paragraph containing a symptom word and a remedy word as written is a recommendable treatment paragraph, whatever the case of the rest |
| Classifier.ParagraphTypesFlagsFollowNames | products.py:13-45 | only `symptoms_only` is not recommendable, and no category is named `unknown` |
| Classifier.ClassifyRecommendIffKind | products.py:126-159 | a paragraph is not recommendable exactly when it is classified `unknown` or `symptoms_only` |
| TopicDetector.IdentifyTreatmentContext | products.py:161-191 | the loop over the domains computes `Detect` |
| TopicDetector.DetectInOrder | products.py:166-191 | one match per matching domain, in table order, and a match exactly for the domains whose entry fires |
| TopicDetector.DetectEntries | products.py:166-191 | as many matches as matched positions, match `i` being the entry of the domain at the `i`-th matched position |
| TopicDetector.MatchedIndicesIncreasing | products.py:166 | the matched positions lie in the table and strictly increase |
| TopicDetector.MatchedIndicesExact | products.py:174-189 | a domain's position is matched exactly when its entry fires |
| TopicDetector.DetectKnown | products.py:166-180 | every reported topic names a domain of the table, and there are at most as many matches as domains |
| TopicDetector.DetectOnePerTopic | products.py:166-191 | with distinct domain names, no topic is reported twice |
| TopicDetector.EntryNamesDomain | products.py:176-189 | a match carries its domain's name |
| TopicDetector.IndicesBounded | products.py:166 | strictly increasing indices below `n` number at most `n` |
| TopicDetector.EntryWithTreatment | products.py:174-180 | a match has treatment context exactly when a topic keyword and a treatment keyword both occur, with strength `min((t + 1.5 tr) / (nk + nt), 1)` |
| TopicDetector.EntryFallback | products.py:181-189 | without treatment words, a match exists exactly when two topic keywords occur and no symptom marker does, with strength `t / nk` at most 1 |
| TopicDetector.EntryNeedsTopicHit | products.py:174-189 | a domain is reported only when one of its topic keywords occurs; treatment keywords alone give no match |
| TopicDetector.PrimaryStrengthMonotone | products.py:175-178 | the primary strength lies in (0, 1] and does not fall as treatment hits grow |
| TopicDetector.FirstTreatmentHitCanLower | products.py:174-186 | the first treatment hit can lower the strength: with all `nk` topic keywords found and two or more treatment keywords, `(nk + 1.5) / (nk + nt)` is below `nk / nk` |
| TopicDetector.EntryStrengthBounds | products.py:174-189 | every match's strength lies in (0, 1] |
| TopicDetector.EntryMonotoneInTreatment | products.py:174-178 | more treatment hits never lower a topic's strength |
| TopicDetector.DetectStrengthBounds | products.py:166-191 | every reported strength lies in (0, 1] |
| Relevance.AddPerHit | products.py:237-252 | each keyword loop adds its weight once per keyword found |
| Relevance.ScoreForDomain | products.py:232-281 | the five sub-scores, the weighted sum and the cap compute `ContextualRelevance` |
| Relevance.CalculateContextualProductRelevance | products.py:229-281 | the relevance for the named topic is `ContextualRelevance` of its domain, within [0, 1] for a similarity in [0, 1] |
| Relevance.RelevanceBounds | products.py:273-281 | the capped relevance lies in [0, 1] for a similarity in [0, 1] |
| Relevance.ContextScoreOnlyForActionKinds | products.py:254-267 | the context sub-score is 0 or 0.3, and it is 0 outside treatment, skincare and prevention |
| Relevance.ActiveWordsLowered | products.py:258 | the active-ingredient words are written in lower case |
| Relevance.GentleWordsLowered | products.py:262 | the gentle-care words are written in lower case |
| Relevance.ProtectiveWordsLowered | products.py:266 | the protective words are written in lower case |
| Relevance.ContextWordIgnoresCase | products.py:232-267 | a product whose name or usage contains an intent word of the paragraph's intent, as written, gets the 0.3 context sub-score |
| Relevance.NoSharedVocabularyLowRelevance | products.py:236-281 | a product sharing no topic, treatment or product-type word with a domain scores at most 0.055 for it |
| Selector.Weights | products.py:201-215 | one weighted relevance per topic |
| Selector.BoostAndWeight | products.py:210-215 | multiply by 1.2 for treatment context, then by the topic strength |
| Selector.WeightedRelevance | products.py:202-215 | one topic's relevance, boosted and weighted |
| Selector.BestWeightedRelevance | products.py:199-216 | the inner loop computes the running maximum of the weighted relevances, starting from 0 |
| Selector.FindContextuallyRelevantProducts | products.py:193-227 | the outer loop, the sort and the slice compute `FindRelevant` |
| Selector.RunningMaxIsMax | products.py:199-216 | the running maximum from 0 is at least 0, at least every element, and 0 or one of the elements |
| Selector.MaxRelevanceIsMax | products.py:199-216 | a product's relevance is its best weighted topic relevance, or 0 |
| Selector.CandidatesExact | products.py:198-222 | the candidates are exactly the catalog products whose best relevance exceeds 0.5, each carrying it in both relevance fields |
| Selector.FindRelevantSound | products.py:193-227 | at most 3 results, sorted by descending relevance, each a catalog product above 0.5 with its best relevance |
| Selector.FindRelevantComplete | products.py:218-227 | a product above 0.5 is returned, or 3 products at least as relevant are |
| Selector.BoostedBounds | products.py:210-215 | a boosted and weighted score lies in [0, 1.2], and in [0, 1] without treatment context |
| Selector.BoostedReachesBound | products.py:210-215 | the 1.2 bound is reached: relevance 1 for a full-strength topic with treatment context is weighted to 1.2 |
| Selector.WeightedBounds | products.py:205-215 | a topic's weighted relevance lies in [0, 1.2], and in [0, 1] without treatment context |
| Selector.NoSharedVocabularyNeverReturned | products.py:193-227 | a product sharing no vocabulary with any topic of the paragraph scores at most 0.066 and is never returned |
| Matcher.FindMatchingProducts | products.py:358-380 | the early exit, the threshold loop, the sort and the top-5 slice compute `Matching` |
| Matcher.AboveThresholdExact | products.py:366-376 | the loop keeps exactly the catalog products whose similarity reaches the threshold, each with that similarity |
| Matcher.MatchingSound | products.py:358-380 | nothing for empty content or catalog; otherwise at most 5 products, sorted by descending similarity, each at or above the threshold |
| Matcher.MatchingComplete | products.py:373-380 | a product at or above the threshold is returned, or 5 products at least as similar are |
| Analyzer.RecommendForParagraph | products.py:87-122 | one pass of the paragraph loop computes `ParagraphRecommendations` |
| Analyzer.AnalyzeTextWith | products.py:80-124 | the paragraph loop computes `AnalyzeText` |
| Analyzer.AnalyzeTextForProducts | products.py:80-124 | with the two tables, the analysis computes `AnalyzeText` |
| Analyzer.NonBlankStrippedShape | products.py:83 | every paragraph is non-empty and stripped |
| Analyzer.StrongOnesSound | products.py:113-122 | only products at relevance 0.7 or above become recommendations, each filled in from the paragraph and its classification |
| Analyzer.StrongOnesComplete | products.py:113-122 | every considered product at relevance 0.7 or above becomes a recommendation |
| Analyzer.ParagraphRecommendationsSound | products.py:86-122 | at most 2 per paragraph; a recommending paragraph has 15 words or more, is recommendable, and has topics; the product is one of the paragraph's top products at 0.7 or above |
| Analyzer.ParagraphRecommendationsComplete | products.py:86-122 | a paragraph of 15 words or more that is recommendable and has topics gets a recommendation for each of its first two ranked products at 0.7 or above |
| Analyzer.RecommenderNumbersItsOwn | products.py:113-116 | each paragraph's recommendations carry its own number, at most 2 of them |
| Analyzer.RecommendAllShape | products.py:86-124 | recommendations come in paragraph order, each from its numbered paragraph, at most 2 per paragraph |
| Analyzer.AnalyzeTextSound | products.py:80-124 | every recommendation names a real paragraph of 15 or more words that is recommendable and has topics, and a catalog product at 0.7 or above; they come in paragraph order |
| Analyzer.RecommendAllComplete | products.py:86-122 | every recommendation of every paragraph is kept by the paragraph loop |
| Analyzer.AnalyzeTextComplete | products.py:80-124 | every recommendation of paragraph `k` appears in the article's, in particular one for each of its first two ranked products at 0.7 or above when the paragraph is long enough, recommendable and has topics |
| Analyzer.EmptyCatalogNothing | products.py:108-122 | an empty catalog yields no recommendation |
| Analyzer.BlankTextNoParagraphs | products.py:83 | an all-whitespace text has no paragraphs |
| Analyzer.AllBlankStripped | products.py:83 | blank parts are all dropped |
| Analyzer.AnalyzeTextEmpty | products.py:80-124 | a blank text or an empty catalog yields no recommendation |
| Markdown.IsLikelyHeaderIff | generator.py:315-343 | a header has 5 to 100 characters and no final `.`, `!`, `?` or `,`, and is the first line, follows a blank line, or contains a header word; and conversely |
| Markdown.HeaderWordsLowered | generator.py:339 | the header words are written in lower case |
| Markdown.HeaderWordIgnoresCase | generator.py:339-340 | a header word contained in the line as written is found by `word in line.lower()` |
| Markdown.ConvertLine | generator.py:286-309 | the loop body computes `MarkdownLine` |
| Markdown.ConvertLines | generator.py:284-311 | the loop converts every line, in order |
| Markdown.PlainTextToMarkdown | generator.py:278-313 | the output is the converted lines joined by line breaks; with a line-keeping formatter, its lines are exactly the converted input lines |
| Markdown.StripKeepsOut | generator.py:286 | stripping adds no character |
| Markdown.MarkdownLineOneLine | generator.py:286-309 | a converted line has no line break, with a line-keeping formatter |
| Markdown.ToMarkdownLines | generator.py:278-313 | as many output lines as input lines, line `i` being the conversion of line `i` |
| Markdown.MarkdownLineLocal | generator.py:286-309 | a line's conversion depends only on it, its position and the line before |
| Markdown.MarkdownLineRules | generator.py:286-309 | blank lines become empty; headers get `#` on the first line or on a long line among the first three, `##` otherwise; list items get `- `; the rest goes through the formatter |
| Markdown.HeaderMarkLenIsMatch | generator.py:260 | the header-mark match found is the one `#{1,6}\s+` finds, the longest, and exists exactly when some prefix matches |
| Markdown.ListMarkLenIsMatch | generator.py:267 | the list-marker match found is the one `\s*[-*+]\s+` finds, the longest, and exists exactly when some prefix matches |
| Markdown.MarkdownToPlainText | generator.py:256-276 | header marks, list markers, blank runs and strip compute `PlainText`, with no surrounding whitespace and no three line breaks in a row |
| Markdown.CollapseNoTriple | generator.py:274 | after collapsing, no three line breaks in a row remain |
| Markdown.CollapseKeepsShortRuns | generator.py:274 | a text with no three line breaks in a row is left unchanged |
| Markdown.CollapseIdempotent | generator.py:274 | collapsing twice is collapsing once |
| Markdown.StripNoTriple | generator.py:276 | stripping keeps a text free of three line breaks in a row |
| Markdown.StripHeadersNoHash | generator.py:260 | a text without `#` is left unchanged by the header step |
| Markdown.StripHeadersMidLine | generator.py:260 | inside a line with no line break ahead, nothing is stripped |
| Markdown.RewriteListNoMarker | generator.py:267 | a text without `-`, `*` or `+` is left unchanged by the list step |
| Markdown.RewriteListMidLine | generator.py:267 | inside a line with no line break ahead, nothing is rewritten |
| Markdown.PlainTextOfPlain | generator.py:256-276 | a stripped text without markdown marks or triple line breaks is its own plain text |
| Markdown.HeaderMarkRoundTrip | generator.py:260 | `# line` and `## line` lose exactly their marks |
| Markdown.ListMarkRoundTrip | generator.py:267 | `- rest` becomes `• rest` |
| Markdown.HeaderLineRoundTrip | generator.py:294-299 | a header written by the plain-to-markdown converter comes back as the stripped line |
| Markdown.BulletLineRoundTrip | generator.py:302-303 | a `• ` line that is not a header goes to `- ` and comes back as the same line |

## Left out

- `calculate_semantic_similarity` (products.py:283-291) is the parameter `sim`. TF-IDF and cosine similarity come from scikit-learn, which is not part of this model. Its exception path, returning 0.0, is one of the values `sim` may take.
- `load_products_database` and `get_demo_products` read files and build demo data. The catalog is a parameter.
- `generate_product_content` and `generate_product_suggestion` call a language-model API. They are I/O and not part of this model.
- The `anthropic_api_key` argument of `analyze_text_for_products` is never used, so it is dropped. Its `print` calls are output only.
- Floating-point rounding: scores are exact reals, so a score that lands within a rounding error of 0.5 or 0.7 could compare differently in the source.
- `product.copy()` and dictionary mutation: products are values, and an annotated product is a `ScoredProduct` that wraps the catalog value. The catalog cannot be aliased.
- Text.Lower: lower-cases ASCII and the nine Polish capitals only, not the rest of Unicode's case mapping.
- Markdown.MarkdownToPlainText: leaves out the bold, italic, link and code substitutions (generator.py:263-264, 270-271). It agrees with the source only on texts where those four patterns find nothing, such as a text with no `**`, no two `*` on one line, no `[..](..)` and no backquotes.
- `add_smart_formatting` (generator.py:345-358) is the parameter `smart`. Its three case-insensitive word-boundary regexes are not modelled.
- The tables are parameters, not module globals. This is only how they are passed: `AnalyzeTextForProducts` uses the literal tables.
- The rest of `generator.py`, `app.py` and `analyzer.py` is not part of this model. That covers the Streamlit UI, web search, page extraction and article generation.
- Two call sites do not match the definitions they call, and the model follows the definitions. generator.py:421 passes four arguments to `find_matching_products`, which takes at most three (products.py:358). analyzer.py:125 and analyzer.py:219 read a `'similarity'` key that `analyze_text_for_products` never sets.
- Product: a catalog entry without `nazwa` or `zastosowanie` makes the source raise `KeyError` (products.py:232 and products.py:368) and abort the analysis. The model's `Product` always carries both fields, so that error is not modelled.
- Relevance.CalculateContextualProductRelevance: requires that the topic names a domain of the table. For an unknown topic the source raises `KeyError` at `SKINCARE_TOPICS[topic]` (products.py:234). `analyze_text_for_products` never reaches that case, because every detected topic is a table key (`TopicDetector.DetectKnown`).
- Lexicon: that the keyword lists of `PARAGRAPH_TYPES` and `SKINCARE_TOPICS` are written in lower case is not proved. Checking each of their roughly 1,500 literal code points is beyond the solver budget of a proof. The smaller word lists are proved lower case, and `Text.LowerKeepsLoweredHit` states what a lower-case keyword gains.
