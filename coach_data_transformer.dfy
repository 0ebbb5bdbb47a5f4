/**
 * The advisory ("coach") aggregation used by the report page: a closed
 * table from advice id to one of three categories, and the transformation
 * of flat coach records into one block per category.
 */
module CoachDataTransformer {
  import opened Js

  datatype Category = Performance | Privacy | BestPractice

  /** The property name of a category in the coach tree and in the output. */
  function CategoryName(c: Category): string
  {
    match c
    case Performance => "performance"
    case Privacy => "privacy"
    case BestPractice => "bestpractice"
  }

  predicate IsCategoryName(id: string)
  {
    id == "performance" || id == "privacy" || id == "bestpractice"
  }

  const PerformanceIds: seq<string> := [
    "assetsRedirects", "avoidRenderBlocking", "avoidScalingImages", "cacheHeaders",
    "cacheHeadersLong", "compressAssets", "connectionKeepAlive", "cpuTimeSpentInRendering",
    "cpuTimeSpentInScripting", "cssPrint", "cssSize", "documentRedirect", "favicon",
    "fewFonts", "fewRequestsPerDomain", "firstContentfulPaint", "googleTagManager",
    "headerSize", "imageSize", "inlineCss", "javascriptSize", "jquery", "largestContentfulPaint",
    "longHeaders", "longTasks", "manyHeaders", "mimeTypes", "optimalCssSize", "pageSize",
    "privateAssets", "responseOk", "spof", "spdy"
  ]

  const PrivacyIds: seq<string> := [
    "amp", "contentSecurityPolicyHeader", "facebook", "fingerprint", "ga", "googleReCaptcha",
    "https", "mixedContent", "referrerPolicyHeader", "strictTransportSecurityHeader",
    "surveillance", "thirdParty", "thirdPartyCookies", "thirdPartyPrivacy", "youtube"
  ]

  const BestPracticeIds: seq<string> := [
    "charset", "cumulativeLayoutShift", "doctype", "language", "metaDescription",
    "optimizely", "pageTitle", "unnecessaryHeaders", "url"
  ]

  /** ADVICE_CATEGORY_MAP: the advice ids listed under a category. */
  function AdviceIds(c: Category): seq<string>
  {
    match c
    case Performance => PerformanceIds
    case Privacy => PrivacyIds
    case BestPractice => BestPracticeIds
  }

  /** The order in which Object.entries visits the map's categories. */
  const CategoryOrder: seq<Category> := [Performance, Privacy, BestPractice]

  lemma EveryCategoryVisited()
    ensures forall c :: c in CategoryOrder
  {
    forall c: Category ensures c in CategoryOrder {
      match c
      case Performance => assert CategoryOrder[0] == c;
      case Privacy => assert CategoryOrder[1] == c;
      case BestPractice => assert CategoryOrder[2] == c;
    }
  }

  /** The first category in `cs` whose list includes `id`. */
  function FirstCategoryWith(cs: seq<Category>, id: string): (r: Option<Category>)
    ensures r.Some? ==> r.value in cs && id in AdviceIds(r.value)
    ensures r.None? ==> forall c :: c in cs ==> id !in AdviceIds(c)
  {
    if |cs| == 0 then None
    else if id in AdviceIds(cs[0]) then Some(cs[0])
    else FirstCategoryWith(cs[1..], id)
  }

  /** getCategoryForAdviceId: the category whose list holds the id, or null. */
  function GetCategoryForAdviceId(id: string): (r: Option<Category>)
    ensures r.Some? ==> id in AdviceIds(r.value)
    ensures r.None? ==> forall c :: id !in AdviceIds(c)
  {
    EveryCategoryVisited();
    FirstCategoryWith(CategoryOrder, id)
  }

  /** No id is listed under two categories. */
  lemma CategoriesDisjoint(c1: Category, c2: Category, id: string)
    requires c1 != c2
    ensures !(id in AdviceIds(c1) && id in AdviceIds(c2))
  {
    PerformancePrivacyDisjoint();
    PerformanceBestPracticeDisjoint();
    PrivacyBestPracticeDisjoint();
  }

  lemma PerformancePrivacyDisjoint()
    ensures forall i, j :: 0 <= i < |PerformanceIds| && 0 <= j < |PrivacyIds| ==> PerformanceIds[i] != PrivacyIds[j]
  {
    forall i, j | 0 <= i < |PerformanceIds| && 0 <= j < |PrivacyIds|
      ensures PerformanceIds[i] != PrivacyIds[j]
    {
    }
  }

  lemma PerformanceBestPracticeDisjoint()
    ensures forall i, j :: 0 <= i < |PerformanceIds| && 0 <= j < |BestPracticeIds| ==> PerformanceIds[i] != BestPracticeIds[j]
  {
    forall i, j | 0 <= i < |PerformanceIds| && 0 <= j < |BestPracticeIds|
      ensures PerformanceIds[i] != BestPracticeIds[j]
    {
    }
  }

  lemma PrivacyBestPracticeDisjoint()
    ensures forall i, j :: 0 <= i < |PrivacyIds| && 0 <= j < |BestPracticeIds| ==> PrivacyIds[i] != BestPracticeIds[j]
  {
    forall i, j | 0 <= i < |PrivacyIds| && 0 <= j < |BestPracticeIds|
      ensures PrivacyIds[i] != BestPracticeIds[j]
    {
    }
  }

  /** Because the lists are disjoint, the lookup finds the one category that
      lists the id, whichever order the categories are visited in. */
  lemma GetCategoryUnique(id: string, c: Category)
    ensures GetCategoryForAdviceId(id) == Some(c) <==> id in AdviceIds(c)
  {
    var r := GetCategoryForAdviceId(id);
    if id in AdviceIds(c) && r != Some(c) {
      CategoriesDisjoint(c, r.value, id);
    }
  }

  /** The category pseudo-ids are not advice ids of any category. */
  lemma CategoryNamesUnclassified(id: string)
    requires IsCategoryName(id)
    ensures GetCategoryForAdviceId(id).None?
  {
    forall c ensures id !in AdviceIds(c) {
      CategoryNameNotListed(id, c);
    }
  }

  lemma CategoryNameNotListed(id: string, c: Category)
    requires IsCategoryName(id)
    ensures id !in AdviceIds(c)
  {
    NoCategoryNameIn(c);
  }

  lemma NoCategoryNameIn(c: Category)
    ensures forall i :: 0 <= i < |AdviceIds(c)| ==> !IsCategoryName(AdviceIds(c)[i])
  {
    match c
    case Performance =>
      forall i | 0 <= i < |PerformanceIds| ensures !IsCategoryName(PerformanceIds[i]) { }
    case Privacy =>
      forall i | 0 <= i < |PrivacyIds| ensures !IsCategoryName(PrivacyIds[i]) { }
    case BestPractice =>
      forall i | 0 <= i < |BestPracticeIds| ensures !IsCategoryName(BestPracticeIds[i]) { }
  }

  // ---------------------------------------------------------------------
  // transformCoachData

  /** One entry of `adviceMap`. */
  datatype Advice = Advice(score: int, title: Json, description: Json)

  const Fresh: Advice := Advice(0, JStr(""), JStr(""))

  /** A value per category: the three keys of `coachMetrics` and of
      `categoryScores`. */
  datatype PerCategory<T> = PerCategory(performance: T, privacy: T, bestpractice: T)
  {
    function Get(c: Category): T
    {
      match c
      case Performance => performance
      case Privacy => privacy
      case BestPractice => bestpractice
    }

    function Set(c: Category, v: T): (r: PerCategory<T>)
      ensures r.Get(c) == v
      ensures forall d :: d != c ==> r.Get(d) == Get(d)
    {
      match c
      case Performance => this.(performance := v)
      case Privacy => this.(privacy := v)
      case BestPractice => this.(bestpractice := v)
    }
  }

  /** The state after the first `forEach`: `adviceMap` with its keys in
      insertion order, and `categoryScores`. */
  datatype Acc = Acc(advice: map<Json, Advice>, order: seq<Json>, scores: PerCategory<int>)

  const Start: Acc := Acc(map[], [], PerCategory(0, 0, 0))

  /** An advice id as it appears in a record, when it is truthy. */
  function RecordId(r: Record): Option<Json>
  {
    var id := Field(r, "adviceId");
    if Truthy(id) then id else None
  }

  /** The score a record writes for its id, if it writes one. */
  function ScoreUpdate(r: Record): Option<int>
  {
    if Truthy(Field(r, "_field")) then
      if IsStr(Field(r, "_field"), "score") then Some(OrZero(ParseInt(Field(r, "_value"), false))) else None
    else if Field(r, "score").Some? then Some(OrZero(ParseInt(Field(r, "score"), false)))
    else None
  }

  /** The title a record writes for its id `id`, if it writes one. */
  function TitleUpdate(r: Record, id: Json): Option<Json>
  {
    if Truthy(Field(r, "_field")) then
      if IsStr(Field(r, "_field"), "title") then Some(OrDefault(Field(r, "_value"), id)) else None
    else if Field(r, "title").Some? then Some(OrDefault(Field(r, "title"), id))
    else None
  }

  /** The description a record writes for its id, if it writes one. */
  function DescriptionUpdate(r: Record): Option<Json>
  {
    if Truthy(Field(r, "_field")) then
      if IsStr(Field(r, "_field"), "description") then Some(OrDefault(Field(r, "_value"), JStr(""))) else None
    else if Field(r, "description").Some? then Some(OrDefault(Field(r, "description"), JStr("")))
    else None
  }

  /** The score a record writes for category `c`: it must carry the category
      name as its advice id and a defined score value. */
  function CategoryScoreUpdate(r: Record, c: Category): Option<int>
  {
    if !IsStr(Field(r, "adviceId"), CategoryName(c)) then None
    else
      var scoreVal := if IsStr(Field(r, "_field"), "score") then Field(r, "_value") else Field(r, "score");
      if scoreVal.Some? then Some(OrZero(ParseInt(scoreVal, false))) else None
  }

  function Apply<T>(u: Option<T>, old_: T): T
  {
    match u
    case Some(v) => v
    case None => old_
  }

  /** One iteration of the first `forEach`. */
  function Step(acc: Acc, r: Record): Acc
  {
    match RecordId(r)
    case None => acc
    case Some(id) =>
      var cur := if id in acc.advice then acc.advice[id] else Fresh;
      var upd := Advice(Apply(ScoreUpdate(r), cur.score),
                        Apply(TitleUpdate(r, id), cur.title),
                        Apply(DescriptionUpdate(r), cur.description));
      var s := acc.scores;
      var s1 := s.Set(Performance, Apply(CategoryScoreUpdate(r, Performance), s.performance));
      var s2 := s1.Set(Privacy, Apply(CategoryScoreUpdate(r, Privacy), s1.privacy));
      var s3 := s2.Set(BestPractice, Apply(CategoryScoreUpdate(r, BestPractice), s2.bestpractice));
      Acc(acc.advice[id := upd], if id in acc.advice then acc.order else acc.order + [id], s3)
  }

  /** The first `forEach` over a prefix of the records. */
  function Accumulate(rs: seq<Record>): Acc
  {
    if |rs| == 0 then Start else Step(Accumulate(rs[..|rs| - 1]), rs[|rs| - 1])
  }

  /** One entry of an output `adviceList`. */
  datatype AdviceSummary = AdviceSummary(advice: Json, title: Json, score: int)

  /** One category of the output; `fullMarkList` is `fullMark.list`. */
  datatype CategoryBlock = CategoryBlock(score: int, adviceList: map<string, AdviceSummary>, fullMarkList: seq<Json>)

  type CoachMetrics = PerCategory<CategoryBlock>

  const EmptyBlock: CategoryBlock := CategoryBlock(0, map[], [])

  /** The shape returned for an empty record list. */
  const EmptyMetrics: CoachMetrics := PerCategory(EmptyBlock, EmptyBlock, EmptyBlock)

  /** The output entry of an accumulated advice item (`parseInt` of an
      integer score returns it unchanged). */
  function Summary(a: Advice): AdviceSummary
  {
    AdviceSummary(OrDefault(Some(a.description), JStr("")), OrDefault(Some(a.title), JStr("")), a.score)
  }

  /** Whether the second loop files the accumulated id `k` under `c`. */
  predicate Listed(k: Json, c: Category)
  {
    k.JStr? && !IsCategoryName(k.s) && GetCategoryForAdviceId(k.s) == Some(c)
  }

  /** The ids of `advice` that `listed` files under `c`, with their summaries. */
  function Filed(advice: map<Json, Advice>, c: Category, listed: (Json, Category) -> bool): map<string, AdviceSummary>
  {
    map k | k in advice && k.JStr? && listed(k, c) :: k.s := Summary(advice[k])
  }

  /** The `adviceList` of category `c` built from an accumulated map. */
  function AdviceListOf(advice: map<Json, Advice>, c: Category): map<string, AdviceSummary>
  {
    Filed(advice, c, Listed)
  }

  function BlockOf(acc: Acc, c: Category): CategoryBlock
  {
    CategoryBlock(acc.scores.Get(c), AdviceListOf(acc.advice, c), [])
  }

  /** What transformCoachData returns for an array of records. */
  function CoachMetricsOf(rs: seq<Record>): CoachMetrics
  {
    if |rs| == 0 then EmptyMetrics
    else
      var acc := Accumulate(rs);
      PerCategory(BlockOf(acc, Performance), BlockOf(acc, Privacy), BlockOf(acc, BestPractice))
  }

  ghost predicate OrderValid(acc: Acc)
  {
    && (forall i, j :: 0 <= i < j < |acc.order| ==> acc.order[i] != acc.order[j])
    && (forall k :: k in acc.advice <==> k in acc.order)
  }

  lemma {:induction false} AccumulateOrder(rs: seq<Record>)
    ensures OrderValid(Accumulate(rs))
  {
    if |rs| > 0 {
      AccumulateOrder(rs[..|rs| - 1]);
    }
  }

  /** The part of the first `forEach` body that updates one `adviceMap`
      entry from a record with id `id`. */
  method UpdateEntry(entry: Advice, record: Record, id: Json) returns (entry': Advice)
    ensures entry' == Advice(Apply(ScoreUpdate(record), entry.score),
                             Apply(TitleUpdate(record, id), entry.title),
                             Apply(DescriptionUpdate(record), entry.description))
  {
    entry' := entry;
    if Truthy(Field(record, "_field")) {
      if IsStr(Field(record, "_field"), "score") {
        entry' := entry'.(score := OrZero(ParseInt(Field(record, "_value"), false)));
      } else if IsStr(Field(record, "_field"), "title") {
        entry' := entry'.(title := OrDefault(Field(record, "_value"), id));
      } else if IsStr(Field(record, "_field"), "description") {
        entry' := entry'.(description := OrDefault(Field(record, "_value"), JStr("")));
      }
    } else {
      if Field(record, "score").Some? {
        entry' := entry'.(score := OrZero(ParseInt(Field(record, "score"), false)));
      }
      if Field(record, "title").Some? {
        entry' := entry'.(title := OrDefault(Field(record, "title"), id));
      }
      if Field(record, "description").Some? {
        entry' := entry'.(description := OrDefault(Field(record, "description"), JStr("")));
      }
    }
  }

  /** The part of the first `forEach` body that tracks the category scores. */
  method TrackCategoryScore(categoryScores: PerCategory<int>, record: Record) returns (categoryScores': PerCategory<int>)
    ensures forall c :: categoryScores'.Get(c) == Apply(CategoryScoreUpdate(record, c), categoryScores.Get(c))
  {
    categoryScores' := categoryScores;
    var adviceId := Field(record, "adviceId");
    var scoreVal := if IsStr(Field(record, "_field"), "score") then Field(record, "_value") else Field(record, "score");
    if IsStr(adviceId, "performance") {
      if scoreVal.Some? {
        categoryScores' := categoryScores'.(performance := OrZero(ParseInt(scoreVal, false)));
      }
    } else if IsStr(adviceId, "privacy") {
      if scoreVal.Some? {
        categoryScores' := categoryScores'.(privacy := OrZero(ParseInt(scoreVal, false)));
      }
    } else if IsStr(adviceId, "bestpractice") {
      if scoreVal.Some? {
        categoryScores' := categoryScores'.(bestpractice := OrZero(ParseInt(scoreVal, false)));
      }
    }
  }

  lemma StepScores(s: PerCategory<int>, r: Record, t: PerCategory<int>)
    requires forall c :: t.Get(c) == Apply(CategoryScoreUpdate(r, c), s.Get(c))
    ensures Step(Acc(map[], [], s), r).scores == t || RecordId(r).None?
  {
    if RecordId(r).Some? {
      var u := Step(Acc(map[], [], s), r).scores;
      assert u.Get(Performance) == t.Get(Performance);
      assert u.Get(Privacy) == t.Get(Privacy);
      assert u.Get(BestPractice) == t.Get(BestPractice);
    }
  }

  /** The body of the first `forEach`: fold one record into `adviceMap`
      and `categoryScores`. */
  method AccumulateRecord(adviceMap: map<Json, Advice>, order: seq<Json>, categoryScores: PerCategory<int>, record: Record)
    returns (adviceMap': map<Json, Advice>, order': seq<Json>, categoryScores': PerCategory<int>)
    ensures Acc(adviceMap', order', categoryScores') == Step(Acc(adviceMap, order, categoryScores), record)
  {
    adviceMap', order', categoryScores' := adviceMap, order, categoryScores;
    var adviceId := Field(record, "adviceId");
    if !Truthy(adviceId) {
      return;
    }
    var id := adviceId.value;
    if id !in adviceMap' {
      adviceMap' := adviceMap'[id := Fresh];
      order' := order' + [id];
    }
    var entry := UpdateEntry(adviceMap'[id], record, id);
    adviceMap' := adviceMap'[id := entry];
    categoryScores' := TrackCategoryScore(categoryScores', record);
    StepScores(categoryScores, record, categoryScores');
  }

  /** The ids among `keys` that `listed` files under `c`: the lists after
      the second loop has visited `keys`. */
  function FiledAmong(advice: map<Json, Advice>, keys: seq<Json>, c: Category, listed: (Json, Category) -> bool)
    : map<string, AdviceSummary>
  {
    map k | k in advice && k in keys && k.JStr? && listed(k, c) :: k.s := Summary(advice[k])
  }

  /** Membership and value of one id in a filed list. */
  lemma FiledAt(advice: map<Json, Advice>, c: Category, listed: (Json, Category) -> bool, x: string)
    ensures x in Filed(advice, c, listed) <==> (JStr(x) in advice && listed(JStr(x), c))
    ensures x in Filed(advice, c, listed) ==> Filed(advice, c, listed)[x] == Summary(advice[JStr(x)])
  {
    if x in Filed(advice, c, listed) {
      var k :| k in advice && k.JStr? && listed(k, c) && k.s == x;
      assert k == JStr(x);
    }
    if JStr(x) in advice && listed(JStr(x), c) {
      assert JStr(x).s == x;
    }
  }

  lemma FiledAmongAt(advice: map<Json, Advice>, keys: seq<Json>, c: Category, listed: (Json, Category) -> bool, x: string)
    ensures x in FiledAmong(advice, keys, c, listed) <==> (JStr(x) in advice && JStr(x) in keys && listed(JStr(x), c))
    ensures x in FiledAmong(advice, keys, c, listed) ==> FiledAmong(advice, keys, c, listed)[x] == Summary(advice[JStr(x)])
  {
    if x in FiledAmong(advice, keys, c, listed) {
      var k :| k in advice && k in keys && k.JStr? && listed(k, c) && k.s == x;
      assert k == JStr(x);
    }
    if JStr(x) in advice && JStr(x) in keys && listed(JStr(x), c) {
      assert JStr(x).s == x;
    }
  }

  /** The lists once one more id `k` is visited. */
  function FiledAfter(advice: map<Json, Advice>, keys: seq<Json>, k: Json, c: Category, listed: (Json, Category) -> bool)
    : map<string, AdviceSummary>
    requires k in advice
  {
    var before := FiledAmong(advice, keys, c, listed);
    if k.JStr? && listed(k, c) then before[k.s := Summary(advice[k])] else before
  }

  lemma FiledStepAt(advice: map<Json, Advice>, order: seq<Json>, j: nat, c: Category, listed: (Json, Category) -> bool,
                    x: string)
    requires j < |order| && order[j] in advice
    ensures x in FiledAmong(advice, order[..j + 1], c, listed) <==> x in FiledAfter(advice, order[..j], order[j], c, listed)
    ensures x in FiledAmong(advice, order[..j + 1], c, listed) ==>
      FiledAmong(advice, order[..j + 1], c, listed)[x] == FiledAfter(advice, order[..j], order[j], c, listed)[x]
  {
    assert order[..j + 1] == order[..j] + [order[j]];
    assert JStr(x) in order[..j + 1] <==> JStr(x) in order[..j] || JStr(x) == order[j];
    FiledAmongAt(advice, order[..j + 1], c, listed, x);
    FiledAmongAt(advice, order[..j], c, listed, x);
  }

  /** Visiting `order[j]` files it under `c` exactly when `listed` says so. */
  lemma FiledStep(advice: map<Json, Advice>, order: seq<Json>, j: nat, c: Category, listed: (Json, Category) -> bool)
    requires j < |order| && order[j] in advice
    ensures FiledAmong(advice, order[..j + 1], c, listed) == FiledAfter(advice, order[..j], order[j], c, listed)
  {
    forall x
      ensures x in FiledAmong(advice, order[..j + 1], c, listed) <==> x in FiledAfter(advice, order[..j], order[j], c, listed)
      ensures x in FiledAmong(advice, order[..j + 1], c, listed) ==>
        FiledAmong(advice, order[..j + 1], c, listed)[x] == FiledAfter(advice, order[..j], order[j], c, listed)[x]
    {
      FiledStepAt(advice, order, j, c, listed, x);
    }
  }

  /** Over keys covering the whole map, the lists are complete. */
  lemma FiledAmongAll(advice: map<Json, Advice>, keys: seq<Json>, c: Category, listed: (Json, Category) -> bool)
    requires forall k :: k in advice ==> k in keys
    ensures FiledAmong(advice, keys, c, listed) == Filed(advice, c, listed)
  {
    forall x
      ensures x in FiledAmong(advice, keys, c, listed) <==> x in Filed(advice, c, listed)
      ensures x in FiledAmong(advice, keys, c, listed) ==> FiledAmong(advice, keys, c, listed)[x] == Filed(advice, c, listed)[x]
    {
      FiledAmongAt(advice, keys, c, listed, x);
      FiledAt(advice, c, listed, x);
    }
  }

  /** The second loop: file every accumulated id, in insertion order, under
      its category, skipping the category pseudo-ids and unknown ids. */
  method FillAdviceLists(adviceMap: map<Json, Advice>, order: seq<Json>)
    returns (lists: PerCategory<map<string, AdviceSummary>>)
    requires forall k :: k in adviceMap <==> k in order
    ensures forall c :: lists.Get(c) == AdviceListOf(adviceMap, c)
  {
    lists := PerCategory(map[], map[], map[]);
    var j := 0;
    while j < |order|
      invariant 0 <= j <= |order|
      invariant forall c :: lists.Get(c) == FiledAmong(adviceMap, order[..j], c, Listed)
    {
      var id := order[j];
      ghost var before := lists;
      if id.JStr? && !IsCategoryName(id.s) {
        var category := GetCategoryForAdviceId(id.s);
        if category.Some? {
          var c := category.value;
          lists := lists.Set(c, lists.Get(c)[id.s := Summary(adviceMap[id])]);
        }
      }
      FillStep(before, lists, adviceMap, order, j);
      j := j + 1;
    }
    assert order[..j] == order;
    forall c ensures FiledAmong(adviceMap, order, c, Listed) == AdviceListOf(adviceMap, c) {
      FiledAmongAll(adviceMap, order, c, Listed);
    }
  }

  /** One turn of the second loop keeps each list equal to the list of the
      ids visited so far. */
  lemma FillStep(before: PerCategory<map<string, AdviceSummary>>, after: PerCategory<map<string, AdviceSummary>>,
                 advice: map<Json, Advice>, order: seq<Json>, j: nat)
    requires j < |order| && order[j] in advice
    requires forall c :: before.Get(c) == FiledAmong(advice, order[..j], c, Listed)
    requires var id := order[j];
      after == (if id.JStr? && !IsCategoryName(id.s) && GetCategoryForAdviceId(id.s).Some?
                then before.Set(GetCategoryForAdviceId(id.s).value,
                                before.Get(GetCategoryForAdviceId(id.s).value)[id.s := Summary(advice[id])])
                else before)
    ensures forall c :: after.Get(c) == FiledAmong(advice, order[..j + 1], c, Listed)
  {
    forall c ensures after.Get(c) == FiledAmong(advice, order[..j + 1], c, Listed) {
      FiledStep(advice, order, j, c, Listed);
    }
  }

  /** transformCoachData */
  method TransformCoachData(records: seq<Record>) returns (coachMetrics: CoachMetrics)
    ensures coachMetrics == CoachMetricsOf(records)
  {
    if |records| == 0 {
      return EmptyMetrics;
    }
    var adviceMap: map<Json, Advice> := map[];
    var order: seq<Json> := [];
    var categoryScores := PerCategory(0, 0, 0);
    var i := 0;
    while i < |records|
      invariant 0 <= i <= |records|
      invariant Accumulate(records[..i]) == Acc(adviceMap, order, categoryScores)
    {
      assert records[..i + 1][..i] == records[..i];
      adviceMap, order, categoryScores := AccumulateRecord(adviceMap, order, categoryScores, records[i]);
      i := i + 1;
    }
    assert records[..i] == records;
    AccumulateOrder(records);
    var lists := FillAdviceLists(adviceMap, order);
    coachMetrics := PerCategory(
      CategoryBlock(categoryScores.performance, lists.Get(Performance), []),
      CategoryBlock(categoryScores.privacy, lists.Get(Privacy), []),
      CategoryBlock(categoryScores.bestpractice, lists.Get(BestPractice), []));
  }

  // ---------------------------------------------------------------------
  // Properties of transformCoachData

  /** An empty record list gives the three categories, each with score 0 and
      empty lists. */
  lemma EmptyInputShape(c: Category)
    ensures CoachMetricsOf([]).Get(c) == CategoryBlock(0, map[], [])
  {
  }

  lemma StepKeys(acc: Acc, r: Record, k: Json)
    ensures k in Step(acc, r).advice <==> k in acc.advice || RecordId(r) == Some(k)
  {
  }

  /** The ids `adviceMap` ends up with are exactly the truthy ids of the
      records. */
  lemma {:induction false} AccumulatedIds(rs: seq<Record>, k: Json)
    ensures k in Accumulate(rs).advice <==> exists i :: 0 <= i < |rs| && RecordId(rs[i]) == Some(k)
  {
    if |rs| > 0 {
      var pre := rs[..|rs| - 1];
      AccumulatedIds(pre, k);
      StepKeys(Accumulate(pre), rs[|rs| - 1], k);
      assert forall i :: 0 <= i < |pre| ==> pre[i] == rs[i];
    }
  }

  lemma {:induction false} AccumulateSkipsRecordWithoutId(rs1: seq<Record>, r: Record, rs2: seq<Record>)
    requires RecordId(r).None?
    ensures Accumulate(rs1 + [r] + rs2) == Accumulate(rs1 + rs2)
    decreases |rs2|
  {
    if |rs2| == 0 {
      AccumulateSnoc(rs1 + [r] + rs2, rs1, r);
      assert rs1 + rs2 == rs1;
    } else {
      var front, last := rs2[..|rs2| - 1], rs2[|rs2| - 1];
      AccumulateSkipsRecordWithoutId(rs1, r, front);
      AccumulateSnoc(rs1 + [r] + rs2, rs1 + [r] + front, last);
      AccumulateSnoc(rs1 + rs2, rs1 + front, last);
    }
  }

  lemma AccumulateSnoc(xs: seq<Record>, pre: seq<Record>, x: Record)
    requires xs == pre + [x]
    ensures Accumulate(xs) == Step(Accumulate(pre), x)
  {
    assert xs[..|xs| - 1] == pre;
  }

  /** A record without a truthy `adviceId` has no effect, wherever it stands. */
  lemma RecordWithoutIdIgnored(rs1: seq<Record>, r: Record, rs2: seq<Record>)
    requires RecordId(r).None?
    ensures CoachMetricsOf(rs1 + [r] + rs2) == CoachMetricsOf(rs1 + rs2)
  {
    AccumulateSkipsRecordWithoutId(rs1, r, rs2);
    if |rs1 + rs2| == 0 {
      assert rs1 + [r] + rs2 == [r];
      assert [r][..0] == [];
      assert Accumulate([r]) == Start;
    }
  }

  /** The score of the last record with id `k` that writes a score, else 0. */
  function LastScore(rs: seq<Record>, k: Json): int
  {
    if |rs| == 0 then 0
    else
      var r := rs[|rs| - 1];
      if RecordId(r) == Some(k) && ScoreUpdate(r).Some? then ScoreUpdate(r).value
      else LastScore(rs[..|rs| - 1], k)
  }

  /** The title of the last record with id `k` that writes a title, else ''. */
  function LastTitle(rs: seq<Record>, k: Json): Json
  {
    if |rs| == 0 then JStr("")
    else
      var r := rs[|rs| - 1];
      if RecordId(r) == Some(k) && TitleUpdate(r, k).Some? then TitleUpdate(r, k).value
      else LastTitle(rs[..|rs| - 1], k)
  }

  /** The description of the last record with id `k` that writes one, else ''. */
  function LastDescription(rs: seq<Record>, k: Json): Json
  {
    if |rs| == 0 then JStr("")
    else
      var r := rs[|rs| - 1];
      if RecordId(r) == Some(k) && DescriptionUpdate(r).Some? then DescriptionUpdate(r).value
      else LastDescription(rs[..|rs| - 1], k)
  }

  /** The category score of the last record that writes one for `c`, else 0. */
  function LastCategoryScore(rs: seq<Record>, c: Category): int
  {
    if |rs| == 0 then 0
    else
      var r := rs[|rs| - 1];
      if CategoryScoreUpdate(r, c).Some? then CategoryScoreUpdate(r, c).value
      else LastCategoryScore(rs[..|rs| - 1], c)
  }

  /** Every field of an accumulated entry is the value written by the last
      record that writes that field for the id: later records overwrite
      earlier ones, field by field. */
  lemma {:induction false} AccumulatedEntry(rs: seq<Record>, k: Json)
    requires k in Accumulate(rs).advice
    ensures Accumulate(rs).advice[k] == Advice(LastScore(rs, k), LastTitle(rs, k), LastDescription(rs, k))
  {
    var pre := rs[..|rs| - 1];
    var r := rs[|rs| - 1];
    if k in Accumulate(pre).advice {
      AccumulatedEntry(pre, k);
    } else if RecordId(r) == Some(k) {
      AccumulatedIds(pre, k);
      NoRecordLeavesDefaults(pre, k);
    }
  }

  lemma {:induction false} NoRecordLeavesDefaults(rs: seq<Record>, k: Json)
    requires forall i :: 0 <= i < |rs| ==> RecordId(rs[i]) != Some(k)
    ensures LastScore(rs, k) == 0 && LastTitle(rs, k) == JStr("") && LastDescription(rs, k) == JStr("")
  {
    if |rs| > 0 {
      NoRecordLeavesDefaults(rs[..|rs| - 1], k);
    }
  }

  /** The category scores are those of the category pseudo-records only:
      each is the last score written by a record whose id is the category
      name, and 0 without one. */
  lemma {:induction false} AccumulatedCategoryScore(rs: seq<Record>, c: Category)
    ensures Accumulate(rs).scores.Get(c) == LastCategoryScore(rs, c)
  {
    if |rs| > 0 {
      AccumulatedCategoryScore(rs[..|rs| - 1], c);
    }
  }

  /** An item is listed in the adviceList of `c` exactly when some record
      carries its id, the id is not a category name, and the closed map
      files it under `c`. */
  lemma ListedItems(rs: seq<Record>, c: Category, id: string)
    requires |rs| > 0
    ensures id in CoachMetricsOf(rs).Get(c).adviceList
        <==> (&& !IsCategoryName(id)
              && id in AdviceIds(c)
              && exists i :: 0 <= i < |rs| && RecordId(rs[i]) == Some(JStr(id)))
  {
    AccumulatedIds(rs, JStr(id));
    GetCategoryUnique(id, c);
    MetricsBlock(rs, c);
  }

  /** The block of category `c` in the output of a non-empty array. */
  lemma MetricsBlock(rs: seq<Record>, c: Category)
    requires |rs| > 0
    ensures CoachMetricsOf(rs).Get(c) == BlockOf(Accumulate(rs), c)
  {
    var acc := Accumulate(rs);
    match c
    case Performance =>
    case Privacy =>
    case BestPractice =>
  }

  /** The score of a listed item is the last score written for it. */
  lemma ListedScore(rs: seq<Record>, c: Category, id: string)
    requires |rs| > 0
    ensures id in CoachMetricsOf(rs).Get(c).adviceList ==>
      CoachMetricsOf(rs).Get(c).adviceList[id].score == LastScore(rs, JStr(id))
  {
    MetricsBlock(rs, c);
    if id in BlockOf(Accumulate(rs), c).adviceList {
      BlockScore(Accumulate(rs), c, id);
      AccumulatedEntry(rs, JStr(id));
    }
  }

  lemma BlockScore(acc: Acc, c: Category, id: string)
    requires id in BlockOf(acc, c).adviceList
    ensures JStr(id) in acc.advice && BlockOf(acc, c).adviceList[id].score == acc.advice[JStr(id)].score
  {
    FiledAt(acc.advice, c, Listed, id);
  }

  /** Closure of the classification: nothing appears in a category's list
      unless the map files it under that category, and a category name
      never appears in any list. */
  lemma ListsAreClassified(rs: seq<Record>, c: Category, id: string)
    requires id in CoachMetricsOf(rs).Get(c).adviceList
    ensures GetCategoryForAdviceId(id) == Some(c)
    ensures !IsCategoryName(id)
  {
  }

  /** The score of each category block is the one its pseudo-record gave. */
  lemma CategoryScoreOfOutput(rs: seq<Record>, c: Category)
    ensures CoachMetricsOf(rs).Get(c).score == LastCategoryScore(rs, c)
  {
    if |rs| > 0 {
      AccumulatedCategoryScore(rs, c);
    }
  }

  // ---------------------------------------------------------------------
  // Values that are not arrays

  /** What a caller can pass: an array of records, or any other value. */
  datatype Input = Records(rs: seq<Record>) | Other(v: Value)

  /** transformCoachData as written: the log line reads `records.length`
      before the array check, so null and undefined throw (`None`); any
      other value that is not an array passes the check's empty branch. */
  function TransformAsWritten(input: Input): (r: Option<CoachMetrics>)
    ensures input.Records? ==> r == Some(CoachMetricsOf(input.rs))
    ensures input.Other? ==> (r.None? <==> input.v.None? || input.v.value == JNull)
  {
    match input
    case Records(rs) => Some(CoachMetricsOf(rs))
    case Other(v) => if v.None? || v.value == JNull then None else Some(EmptyMetrics)
  }

  /** `transformCoachData(null)` and `transformCoachData(undefined)` throw. */
  lemma NullInputThrows()
    ensures TransformAsWritten(Other(Some(JNull))).None?
    ensures TransformAsWritten(Other(None)).None?
  {
  }

  /** transformCoachData with the array check first: every value that is
      not an array gives the empty shape. */
  function TransformInput(input: Input): CoachMetrics
  {
    match input
    case Records(rs) => CoachMetricsOf(rs)
    case Other(_) => EmptyMetrics
  }

  /** The corrected transformation never throws, gives the empty shape for
      every value that is not an array and for the empty array, and agrees
      with the code as written wherever that does not throw. */
  lemma TransformInputCorrect(input: Input)
    ensures input.Other? || input == Records([]) ==>
      forall c :: TransformInput(input).Get(c) == CategoryBlock(0, map[], [])
    ensures TransformAsWritten(input).Some? ==> TransformAsWritten(input).value == TransformInput(input)
  {
    if input == Records([]) {
      forall c ensures TransformInput(input).Get(c) == CategoryBlock(0, map[], []) {
        EmptyInputShape(c);
      }
    }
  }
}
