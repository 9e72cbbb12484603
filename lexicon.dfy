/** The two static keyword tables of products.py: the paragraph-intent
    categories (PARAGRAPH_TYPES) and the skincare topic domains
    (SKINCARE_TOPICS). Both are read-only; their order is the iteration
    order of the source's dictionaries and decides ties. */
module Lexicon {
  import opened Common
  import opened Text

  /** One paragraph-intent category: its positive keywords, its exclusion
      keywords and whether a paragraph of this kind may carry a product. */
  datatype IntentCategory = IntentCategory(
    name: string,
    keywords: seq<string>,
    excludeKeywords: seq<string>,
    shouldRecommend: bool)

  /** One topic domain: topic vocabulary, treatment-context vocabulary and
      the product-type phrases that suit it. */
  datatype TopicDomain = TopicDomain(
    name: string,
    keywords: seq<string>,
    treatmentKeywords: seq<string>,
    relatedProducts: seq<string>)

  const ParagraphTypes: seq<IntentCategory> := [
    IntentCategory("symptoms_only",
      ["objawy", "symptomy", "występują", "pojawiają się", "manifestują się", "charakteryzują się",
       "można zaobserwować", "widoczne są", "objawia się", "wykazuje", "cechuje się"],
      ["leczenie", "terapia", "stosować", "aplikować", "używać", "polecane", "warto", "można zastosować"],
      false),
    IntentCategory("treatment",
      ["leczenie", "terapia", "zabieg", "procedura", "aplikacja", "stosowanie", "używanie",
       "można zastosować", "warto użyć", "polecane", "skuteczne", "pomocne"],
      ["objawy które", "symptomy takie jak", "charakteryzuje się"],
      true),
    IntentCategory("skincare",
      ["pielęgnacja", "codziennie", "regularnie", "rano", "wieczorem", "kremy", "serum",
       "preparaty", "kosmetyki", "nawilżanie", "oczyszczanie", "rutyna"],
      [],
      true),
    IntentCategory("prevention",
      ["zapobieganie", "profilaktyka", "unikanie", "ochrona", "prewencja", "aby uniknąć",
       "w celu zapobieżenia", "chroniąc", "zabezpieczając"],
      [],
      true),
    IntentCategory("advice",
      ["warto", "polecane", "zalecane", "sugerowane", "można", "dobrze jest",
       "specjaliści zalecają", "dermatologowie polecają", "eksperci sugerują"],
      ["objawy", "symptomy"],
      true)
  ]

  const SkincareTopics: seq<TopicDomain> := [
    TopicDomain("acne",
      ["trądzik", "wypryski", "zaskórniki", "pory", "sebum", "łojotok", "pryszcze"],
      ["oczyszczanie", "złuszczanie", "kwasy", "antybakteryjne", "regulacja"],
      ["żel oczyszczający", "toner", "serum", "kwas", "peeling"]),
    TopicDomain("aging",
      ["starzenie", "zmarszczki", "anti-age", "kolagen", "elastyna", "ujędrnienie"],
      ["liftingujące", "przeciwzmarszczkowe", "regenerujące", "ujędrniające"],
      ["serum", "krem", "maska", "retinol", "witamina c"]),
    TopicDomain("pigmentation",
      ["przebarwienia", "plamy", "melanina", "hiperpigmentacja", "rozjaśnienie"],
      ["rozjaśniające", "wybielające", "przeciwplamowe", "wyrównujące koloryt"],
      ["serum rozjaśniające", "krem przeciwplamowy", "kwas kojowy"]),
    TopicDomain("sensitivity",
      ["wrażliwa", "podrażnienia", "alergiczne", "swędzenie", "zaczerwienienie"],
      ["łagodzące", "uspokajające", "hipoalergiczne", "delikatne"],
      ["łagodzący", "uspokajający", "delikatny", "hipoalergiczny"]),
    TopicDomain("dryness",
      ["sucha", "odwodnienie", "łuszczenie", "szorstka", "napięcie skóry"],
      ["nawilżające", "odżywiające", "regenerująca", "natłuszczające"],
      ["nawilżający", "odżywczy", "regenerujący", "masło", "olejek"]),
    TopicDomain("rosacea",
      ["rumień", "naczynka", "zaczerwienienia", "kuperwata", "teleangiektazje"],
      ["wzmacniające naczynia", "przeciwzaczerwienieowe", "łagodzące"],
      ["wzmacniający naczynia", "przeciwzapalny", "łagodzący"])
  ]

  /** The first domain of `topics` with the given name. */
  function FindTopic(topics: seq<TopicDomain>, name: string): (r: Option<TopicDomain>)
    ensures r.Some? ==> r.value in topics && r.value.name == name
    ensures r.None? <==> forall d :: d in topics ==> d.name != name
  {
    if topics == [] then None
    else if topics[0].name == name then Some(topics[0])
    else FindTopic(topics[1..], name)
  }

  /** No two domains share a name: the table is a dictionary. */
  predicate DistinctNames(topics: seq<TopicDomain>) {
    forall a, b :: 0 <= a < b < |topics| ==> topics[a].name != topics[b].name
  }

  /** With distinct names, every domain is found again by its own name. */
  lemma {:induction false} FindTopicByName(topics: seq<TopicDomain>, k: nat)
    requires DistinctNames(topics)
    requires k < |topics|
    ensures FindTopic(topics, topics[k].name) == Some(topics[k])
  {
    if k > 0 {
      var tail := topics[1..];
      assert topics[0].name != topics[k].name;
      assert DistinctNames(tail) by {
        forall a, b | 0 <= a < b < |tail| ensures tail[a].name != tail[b].name {
          assert tail[a] == topics[a + 1] && tail[b] == topics[b + 1];
        }
      }
      FindTopicByName(tail, k - 1);
      assert tail[k - 1] == topics[k];
    }
  }

  /** The keys of SKINCARE_TOPICS are distinct. */
  lemma SkincareTopicNamesDistinct()
    ensures DistinctNames(SkincareTopics)
  {
    var t := SkincareTopics;
    forall a, b | 0 <= a < b < |t| ensures t[a].name != t[b].name {
      if a == 4 && b == 5 {
        assert t[a].name[0] != t[b].name[0];
      } else {
        assert a == 0 || a == 1 || a == 2 || a == 3 || a == 4;
        assert |t[a].name| != |t[b].name|;
      }
    }
  }

  /** A category lists each of its keywords and exclusion keywords once. */
  predicate CategoryListsDistinct(c: IntentCategory) {
    NoDuplicates(c.keywords) && NoDuplicates(c.excludeKeywords)
  }

  /** A domain lists each of its topic, treatment and product-type phrases
      once. */
  predicate DomainListsDistinct(d: TopicDomain) {
    NoDuplicates(d.keywords) && NoDuplicates(d.treatmentKeywords) && NoDuplicates(d.relatedProducts)
  }

  /** Two phrases that differ in length or in one of their first two or
      last characters. */
  predicate VisiblyDiffer(a: string, b: string) {
    |a| != |b|
    || (|a| >= 2 && |b| >= 2
        && (a[0] != b[0] || a[1] != b[1] || a[|a| - 1] != b[|b| - 1]))
  }

  /** Pairwise visibly different phrases are pairwise distinct. */
  lemma DistinctWhenVisiblyDiffer(l: seq<string>)
    requires forall i, j :: 0 <= i < j < |l| ==> VisiblyDiffer(l[i], l[j])
    ensures NoDuplicates(l)
  {
  }

  /** No keyword list of PARAGRAPH_TYPES repeats a keyword, so their hit
      counts are counts of distinct keywords. */
  lemma ParagraphTypesListsDistinct()
    ensures forall k :: 0 <= k < |ParagraphTypes| ==> CategoryListsDistinct(ParagraphTypes[k])
  {
    CategoryListsDistinctAt0();
    CategoryListsDistinctAt1();
    CategoryListsDistinctAt2();
    CategoryListsDistinctAt3();
    CategoryListsDistinctAt4();
  }

  /** No keyword list of SKINCARE_TOPICS repeats a phrase, so their hit
      counts are counts of distinct phrases. */
  lemma SkincareTopicsListsDistinct()
    ensures forall k :: 0 <= k < |SkincareTopics| ==> DomainListsDistinct(SkincareTopics[k])
  {
    DomainListsDistinctAt0();
    DomainListsDistinctAt1();
    DomainListsDistinctAt2();
    DomainListsDistinctAt3();
    DomainListsDistinctAt4();
    DomainListsDistinctAt5();
  }

  /** The `symptoms_only` lists. */
  lemma CategoryListsDistinctAt0()
    ensures CategoryListsDistinct(ParagraphTypes[0])
  {
    DistinctWhenVisiblyDiffer(ParagraphTypes[0].keywords);
    DistinctWhenVisiblyDiffer(ParagraphTypes[0].excludeKeywords);
  }

  /** The `treatment` lists. */
  lemma CategoryListsDistinctAt1()
    ensures CategoryListsDistinct(ParagraphTypes[1])
  {
    DistinctWhenVisiblyDiffer(ParagraphTypes[1].keywords);
    DistinctWhenVisiblyDiffer(ParagraphTypes[1].excludeKeywords);
  }

  /** The `skincare` lists. */
  lemma CategoryListsDistinctAt2()
    ensures CategoryListsDistinct(ParagraphTypes[2])
  {
    DistinctWhenVisiblyDiffer(ParagraphTypes[2].keywords);
    DistinctWhenVisiblyDiffer(ParagraphTypes[2].excludeKeywords);
  }

  /** The `prevention` lists. */
  lemma CategoryListsDistinctAt3()
    ensures CategoryListsDistinct(ParagraphTypes[3])
  {
    DistinctWhenVisiblyDiffer(ParagraphTypes[3].keywords);
    DistinctWhenVisiblyDiffer(ParagraphTypes[3].excludeKeywords);
  }

  /** The `advice` lists. */
  lemma CategoryListsDistinctAt4()
    ensures CategoryListsDistinct(ParagraphTypes[4])
  {
    DistinctWhenVisiblyDiffer(ParagraphTypes[4].keywords);
    DistinctWhenVisiblyDiffer(ParagraphTypes[4].excludeKeywords);
  }

  /** The `acne` lists. */
  lemma DomainListsDistinctAt0()
    ensures DomainListsDistinct(SkincareTopics[0])
  {
    DistinctWhenVisiblyDiffer(SkincareTopics[0].keywords);
    DistinctWhenVisiblyDiffer(SkincareTopics[0].treatmentKeywords);
    DistinctWhenVisiblyDiffer(SkincareTopics[0].relatedProducts);
  }

  /** The `aging` lists. */
  lemma DomainListsDistinctAt1()
    ensures DomainListsDistinct(SkincareTopics[1])
  {
    DistinctWhenVisiblyDiffer(SkincareTopics[1].keywords);
    DistinctWhenVisiblyDiffer(SkincareTopics[1].treatmentKeywords);
    DistinctWhenVisiblyDiffer(SkincareTopics[1].relatedProducts);
  }

  /** The `pigmentation` lists. */
  lemma DomainListsDistinctAt2()
    ensures DomainListsDistinct(SkincareTopics[2])
  {
    DistinctWhenVisiblyDiffer(SkincareTopics[2].keywords);
    DistinctWhenVisiblyDiffer(SkincareTopics[2].treatmentKeywords);
    DistinctWhenVisiblyDiffer(SkincareTopics[2].relatedProducts);
  }

  /** The `sensitivity` lists. */
  lemma DomainListsDistinctAt3()
    ensures DomainListsDistinct(SkincareTopics[3])
  {
    DistinctWhenVisiblyDiffer(SkincareTopics[3].keywords);
    DistinctWhenVisiblyDiffer(SkincareTopics[3].treatmentKeywords);
    DistinctWhenVisiblyDiffer(SkincareTopics[3].relatedProducts);
  }

  /** The `dryness` lists. */
  lemma DomainListsDistinctAt4()
    ensures DomainListsDistinct(SkincareTopics[4])
  {
    DistinctWhenVisiblyDiffer(SkincareTopics[4].keywords);
    DistinctWhenVisiblyDiffer(SkincareTopics[4].treatmentKeywords);
    DistinctWhenVisiblyDiffer(SkincareTopics[4].relatedProducts);
  }

  /** The `rosacea` lists. */
  lemma DomainListsDistinctAt5()
    ensures DomainListsDistinct(SkincareTopics[5])
  {
    DistinctWhenVisiblyDiffer(SkincareTopics[5].keywords);
    DistinctWhenVisiblyDiffer(SkincareTopics[5].treatmentKeywords);
    DistinctWhenVisiblyDiffer(SkincareTopics[5].relatedProducts);
  }
}
