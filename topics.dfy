/** The topic detector of products.py (`identify_treatment_context`): for
    every skincare domain, in table order, the lower-cased paragraph is
    checked for the domain's topic keywords and treatment keywords; a
    domain is reported when both kinds occur (with treatment context), or
    when at least two topic keywords occur in a paragraph that does not
    merely describe symptoms (without treatment context). */
module TopicDetector {
  import opened Common
  import opened Text
  import opened Lexicon

  datatype TopicMatch = TopicMatch(topic: string, strength: real, hasTreatmentContext: bool)

  /** Words that mark a paragraph as a mere description of symptoms. */
  const SymptomMarkers: seq<string> := ["objawy", "symptomy", "charakteryzują się", "pojawiają się"]

  /** `min((t + 1.5 * tr) / (nk + nt), 1.0)` for `t` topic hits and `tr`
      treatment hits out of `nk` and `nt` keywords. */
  function PrimaryStrength(t: nat, tr: nat, nk: nat, nt: nat): real
    requires nk + nt > 0
  {
    Min((t as real + tr as real * 1.5) / (nk + nt) as real, 1.0)
  }

  /** What the detector reports for one domain, if anything. */
  function TopicEntry(d: TopicDomain, low: string): Option<TopicMatch> {
    var t := CountFound(d.keywords, low);
    var tr := CountFound(d.treatmentKeywords, low);
    if t >= 1 && tr >= 1 then
      Some(TopicMatch(d.name, PrimaryStrength(t, tr, |d.keywords|, |d.treatmentKeywords|), true))
    else if t >= 2 && !AnyFound(SymptomMarkers, low) then
      Some(TopicMatch(d.name, t as real / |d.keywords| as real, false))
    else None
  }

  /** The detector's loop run over `topics`. */
  function DetectIn(topics: seq<TopicDomain>, low: string): seq<TopicMatch> {
    if topics == [] then []
    else
      DetectIn(topics[..|topics| - 1], low)
      + match TopicEntry(topics[|topics| - 1], low)
        case Some(m) => [m]
        case None => []
  }

  /** The positions in `topics` of the domains that are reported. */
  function MatchedIndices(topics: seq<TopicDomain>, low: string): seq<nat> {
    if topics == [] then []
    else
      MatchedIndices(topics[..|topics| - 1], low)
      + if TopicEntry(topics[|topics| - 1], low).Some? then [|topics| - 1] else []
  }

  /** The topic matches of a paragraph against the domains `skincareTopics`
      (the source's SKINCARE_TOPICS). */
  function Detect(skincareTopics: seq<TopicDomain>, paragraph: string): seq<TopicMatch> {
    DetectIn(skincareTopics, Lower(paragraph))
  }

  /** `identify_treatment_context`. */
  method IdentifyTreatmentContext(skincareTopics: seq<TopicDomain>, paragraph: string)
    returns (identified: seq<TopicMatch>)
    ensures identified == Detect(skincareTopics, paragraph)
  {
    var low := Lower(paragraph);
    identified := [];
    var i := 0;
    while i < |skincareTopics|
      invariant 0 <= i <= |skincareTopics|
      invariant identified == DetectIn(skincareTopics[..i], low)
    {
      var d := skincareTopics[i];
      var topicMatches := CountFound(d.keywords, low);
      var treatmentMatches := CountFound(d.treatmentKeywords, low);
      if topicMatches >= 1 && treatmentMatches >= 1 {
        var strength := (topicMatches as real + treatmentMatches as real * 1.5)
                        / (|d.keywords| + |d.treatmentKeywords|) as real;
        identified := identified + [TopicMatch(d.name, Min(strength, 1.0), true)];
      } else if topicMatches >= 2 {
        if !AnyFound(SymptomMarkers, low) {
          var strength := topicMatches as real / |d.keywords| as real;
          identified := identified + [TopicMatch(d.name, strength, false)];
        }
      }
      assert skincareTopics[..i + 1][..i] == skincareTopics[..i];
      i := i + 1;
    }
    assert skincareTopics[..i] == skincareTopics;
  }

  /** The reported matches are, in order, the entries of the domains at
      strictly increasing positions, and a domain is reported exactly when
      its entry exists: at most one match per domain, in table order. */
  lemma DetectInOrder(topics: seq<TopicDomain>, low: string)
    ensures |DetectIn(topics, low)| == |MatchedIndices(topics, low)|
    ensures forall i :: 0 <= i < |MatchedIndices(topics, low)| ==>
              MatchedIndices(topics, low)[i] < |topics|
              && TopicEntry(topics[MatchedIndices(topics, low)[i]], low) == Some(DetectIn(topics, low)[i])
    ensures forall i, j :: 0 <= i < j < |MatchedIndices(topics, low)| ==>
              MatchedIndices(topics, low)[i] < MatchedIndices(topics, low)[j]
    ensures forall k :: 0 <= k < |topics| ==>
              (k in MatchedIndices(topics, low) <==> TopicEntry(topics[k], low).Some?)
  {
    DetectEntries(topics, low);
    MatchedIndicesIncreasing(topics, low);
    MatchedIndicesExact(topics, low);
  }

  /** Match `i` is the entry of the domain at position `i` of the matched
      positions. */
  lemma {:induction false} DetectEntries(topics: seq<TopicDomain>, low: string)
    ensures |DetectIn(topics, low)| == |MatchedIndices(topics, low)|
    ensures forall i :: 0 <= i < |MatchedIndices(topics, low)| ==>
              MatchedIndices(topics, low)[i] < |topics|
              && TopicEntry(topics[MatchedIndices(topics, low)[i]], low) == Some(DetectIn(topics, low)[i])
  {
    if topics != [] {
      var n := |topics| - 1;
      var init := topics[..n];
      DetectEntries(init, low);
      assert forall k :: 0 <= k < n ==> topics[k] == init[k];
      var r0, i0 := DetectIn(init, low), MatchedIndices(init, low);
      var e := TopicEntry(topics[n], low);
      if e.Some? {
        assert DetectIn(topics, low) == r0 + [e.value];
        assert MatchedIndices(topics, low) == i0 + [n];
      } else {
        assert DetectIn(topics, low) == r0;
        assert MatchedIndices(topics, low) == i0;
      }
    }
  }

  /** The matched positions are strictly increasing and below `|topics|`. */
  lemma {:induction false} MatchedIndicesIncreasing(topics: seq<TopicDomain>, low: string)
    ensures forall i :: 0 <= i < |MatchedIndices(topics, low)| ==> MatchedIndices(topics, low)[i] < |topics|
    ensures forall i, j :: 0 <= i < j < |MatchedIndices(topics, low)| ==>
              MatchedIndices(topics, low)[i] < MatchedIndices(topics, low)[j]
  {
    if topics != [] {
      var n := |topics| - 1;
      MatchedIndicesIncreasing(topics[..n], low);
    }
  }

  /** A position is matched exactly when its domain's entry exists. */
  lemma {:induction false} MatchedIndicesExact(topics: seq<TopicDomain>, low: string)
    ensures forall k :: 0 <= k < |topics| ==>
              (k in MatchedIndices(topics, low) <==> TopicEntry(topics[k], low).Some?)
  {
    if topics != [] {
      var n := |topics| - 1;
      var init := topics[..n];
      MatchedIndicesExact(init, low);
      MatchedIndicesIncreasing(init, low);
      assert forall k :: 0 <= k < n ==> topics[k] == init[k];
    }
  }

  /** Every match of a paragraph names a domain of the table, and there
      are at most as many matches as domains. */
  lemma DetectKnown(skincareTopics: seq<TopicDomain>, paragraph: string)
    ensures forall i :: 0 <= i < |Detect(skincareTopics, paragraph)| ==>
              FindTopic(skincareTopics, Detect(skincareTopics, paragraph)[i].topic).Some?
    ensures |Detect(skincareTopics, paragraph)| <= |skincareTopics|
  {
    var low := Lower(paragraph);
    var r := Detect(skincareTopics, paragraph);
    var idx := MatchedIndices(skincareTopics, low);
    DetectInOrder(skincareTopics, low);
    forall i | 0 <= i < |r| ensures FindTopic(skincareTopics, r[i].topic).Some? {
      EntryNamesDomain(skincareTopics[idx[i]], low);
      assert skincareTopics[idx[i]] in skincareTopics;
    }
    IndicesBounded(idx, |skincareTopics|);
  }

  /** With distinct domain names, a paragraph yields at most one match per
      domain. */
  lemma DetectOnePerTopic(skincareTopics: seq<TopicDomain>, paragraph: string)
    requires DistinctNames(skincareTopics)
    ensures forall i, j :: 0 <= i < j < |Detect(skincareTopics, paragraph)| ==>
              Detect(skincareTopics, paragraph)[i].topic != Detect(skincareTopics, paragraph)[j].topic
  {
    var low := Lower(paragraph);
    var r := Detect(skincareTopics, paragraph);
    var idx := MatchedIndices(skincareTopics, low);
    DetectInOrder(skincareTopics, low);
    forall i | 0 <= i < |r| ensures r[i].topic == skincareTopics[idx[i]].name {
      EntryNamesDomain(skincareTopics[idx[i]], low);
    }
    forall i, j | 0 <= i < j < |r| ensures r[i].topic != r[j].topic {
      assert idx[i] < idx[j];
    }
  }

  lemma EntryNamesDomain(d: TopicDomain, low: string)
    requires TopicEntry(d, low).Some?
    ensures TopicEntry(d, low).value.topic == d.name
  {
  }

  /** A strictly increasing sequence of indices below `n` has at most `n`
      entries. */
  lemma {:induction false} IndicesBounded(idx: seq<nat>, n: nat)
    requires forall i :: 0 <= i < |idx| ==> idx[i] < n
    requires forall i, j :: 0 <= i < j < |idx| ==> idx[i] < idx[j]
    ensures |idx| <= n
  {
    if idx != [] {
      var last := idx[|idx| - 1];
      IndicesBounded(idx[..|idx| - 1], last);
    }
  }

  /** A domain is reported with treatment context exactly when the
      paragraph contains one of its topic keywords and one of its treatment
      keywords; its strength is then the primary formula. */
  lemma EntryWithTreatment(d: TopicDomain, low: string)
    ensures (TopicEntry(d, low).Some? && TopicEntry(d, low).value.hasTreatmentContext)
        <==> AnyFound(d.keywords, low) && AnyFound(d.treatmentKeywords, low)
    ensures AnyFound(d.keywords, low) && AnyFound(d.treatmentKeywords, low) ==>
              TopicEntry(d, low) == Some(TopicMatch(d.name,
                PrimaryStrength(CountFound(d.keywords, low), CountFound(d.treatmentKeywords, low),
                                |d.keywords|, |d.treatmentKeywords|), true))
  {
    CountFoundPositive(d.keywords, low);
    CountFoundPositive(d.treatmentKeywords, low);
  }

  /** Without a treatment keyword a domain is reported only when two or
      more of its topic keywords occur and no symptom marker does; the
      strength is then the share of topic keywords found, and the match has
      no treatment context. */
  lemma EntryFallback(d: TopicDomain, low: string)
    requires !AnyFound(d.treatmentKeywords, low)
    ensures TopicEntry(d, low).Some?
        <==> CountFound(d.keywords, low) >= 2 && !AnyFound(SymptomMarkers, low)
    ensures TopicEntry(d, low).Some? ==>
              TopicEntry(d, low) == Some(TopicMatch(d.name,
                CountFound(d.keywords, low) as real / |d.keywords| as real, false))
              && TopicEntry(d, low).value.strength <= 1.0
  {
    CountFoundPositive(d.treatmentKeywords, low);
    var t := CountFound(d.keywords, low);
    if t >= 2 {
      DivAtMostOne(t, |d.keywords|);
    }
  }

  /** Helper: a share of at most the whole is at most 1. */
  lemma DivAtMostOne(a: nat, b: nat)
    requires 0 < b && a <= b
    ensures a as real / b as real <= 1.0
  {
    assert a as real <= b as real;
  }

  /** A domain is reported only when one of its topic keywords occurs: a
      paragraph with treatment keywords alone yields no match for it. */
  lemma EntryNeedsTopicHit(d: TopicDomain, low: string)
    ensures TopicEntry(d, low).Some? ==> AnyFound(d.keywords, low)
    ensures !AnyFound(d.keywords, low) ==> TopicEntry(d, low) == None
  {
    CountFoundPositive(d.keywords, low);
  }

  /** The first treatment hit can lower a topic's strength, so monotonicity
      holds only from one treatment hit on: with every one of `nk` topic
      keywords found and `nt >= 2` treatment keywords in the domain, the
      strength is `nk / nk = 1` without a treatment hit and
      `(nk + 1.5) / (nk + nt) < 1` with one (for acne, 1 against 8.5 / 12). */
  lemma FirstTreatmentHitCanLower(nk: nat, nt: nat)
    requires nk >= 1 && nt >= 2
    ensures PrimaryStrength(nk, 1, nk, nt) < nk as real / nk as real
  {
    var a := nk as real + 1.5;
    var n := (nk + nt) as real;
    assert 0.0 < n - a;
    assert n / n - a / n == (n - a) / n;
    assert 0.0 < (n - a) / n;
    assert nk as real / nk as real == 1.0;
  }

  /** With at least one treatment hit, more treatment hits never lower the
      strength, and the strength lies in (0, 1]. */
  lemma PrimaryStrengthMonotone(t: nat, tr: nat, tr': nat, nk: nat, nt: nat)
    requires nk + nt > 0
    requires 1 <= tr <= tr'
    ensures PrimaryStrength(t, tr, nk, nt) <= PrimaryStrength(t, tr', nk, nt)
    ensures 0.0 < PrimaryStrength(t, tr, nk, nt) <= 1.0
  {
    var n := (nk + nt) as real;
    var a := t as real + tr as real * 1.5;
    var b := t as real + tr' as real * 1.5;
    assert 0.0 < a <= b;
    assert a / n <= b / n by {
      assert b / n - a / n == (b - a) / n;
    }
    assert 0.0 < a / n;
  }

  /** Every reported match has a strength in (0, 1]. */
  lemma EntryStrengthBounds(d: TopicDomain, low: string)
    requires TopicEntry(d, low).Some?
    ensures 0.0 < TopicEntry(d, low).value.strength <= 1.0
  {
    var t := CountFound(d.keywords, low);
    var tr := CountFound(d.treatmentKeywords, low);
    if t >= 1 && tr >= 1 {
      PrimaryStrengthMonotone(t, tr, tr, |d.keywords|, |d.treatmentKeywords|);
    } else {
      DivAtMostOne(t, |d.keywords|);
      assert t as real / |d.keywords| as real > 0.0;
    }
  }

  /** Two paragraphs with the same topic hits for a domain: the one with
      more treatment hits (at least one) gets a match at least as strong. */
  lemma EntryMonotoneInTreatment(d: TopicDomain, low: string, low': string)
    requires CountFound(d.keywords, low) == CountFound(d.keywords, low') >= 1
    requires 1 <= CountFound(d.treatmentKeywords, low) <= CountFound(d.treatmentKeywords, low')
    ensures TopicEntry(d, low).Some? && TopicEntry(d, low').Some?
    ensures TopicEntry(d, low).value.strength <= TopicEntry(d, low').value.strength
  {
    PrimaryStrengthMonotone(CountFound(d.keywords, low), CountFound(d.treatmentKeywords, low),
      CountFound(d.treatmentKeywords, low'), |d.keywords|, |d.treatmentKeywords|);
  }

  /** Every match reported for a paragraph has a strength in (0, 1]. */
  lemma DetectStrengthBounds(skincareTopics: seq<TopicDomain>, paragraph: string)
    ensures forall m :: m in Detect(skincareTopics, paragraph) ==> 0.0 < m.strength <= 1.0
  {
    var low := Lower(paragraph);
    var r := Detect(skincareTopics, paragraph);
    var idx := MatchedIndices(skincareTopics, low);
    DetectInOrder(skincareTopics, low);
    forall m | m in r ensures 0.0 < m.strength <= 1.0 {
      var i :| 0 <= i < |r| && r[i] == m;
      EntryStrengthBounds(skincareTopics[idx[i]], low);
    }
  }
}
