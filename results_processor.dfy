/**
 * `processAndStoreDetailedResults`: the walk over a test run's page folders
 * that turns the three per-page documents (timings, advice, content
 * breakdown) into time-series points and relational upserts.
 *
 * The filesystem is replaced by its outcome: `pages` is `None` when the
 * pages directory is missing, a page's `data` is `None` when it has no data
 * directory, and each document is absent, malformed (JSON.parse throws) or
 * parsed. A throw anywhere in the loop ends the whole walk (the outer
 * try/catch); what was written before it stays written.
 */
module ResultsProcessor {
  import opened Js
  import opened TimeSeries
  import CoachDataService
  import PagexrayDataService
  import PerformanceTransformer

  datatype Artifact = Absent | Malformed | Parsed(doc: Json)

  datatype PageData = PageData(browsertime: Artifact, coach: Artifact, pagexray: Artifact)

  datatype Page = Page(folder: string, data: Option<PageData>)

  // ---------------------------------------------------------------------
  // Effects

  /** What a stretch of the walk does, in order per kind: points appended to
      the write buffer, advice saves, score saves and pagexray saves; and
      whether it ended in a throw. */
  datatype Effects = Effects(
    points: seq<Point>,
    adviceSaves: seq<CoachDataService.AdviceSave>,
    scoreSaves: seq<(Json, CoachDataService.ScoresArg)>,
    pagexraySaves: seq<PagexrayDataService.PagexraySave>,
    aborted: bool)

  const NoEffects := Effects([], [], [], [], false)

  const Abort := Effects([], [], [], [], true)

  /** `e1` followed by `e2`, unless `e1` threw. */
  function Then(e1: Effects, e2: Effects): Effects
  {
    if e1.aborted then e1
    else Effects(e1.points + e2.points, e1.adviceSaves + e2.adviceSaves, e1.scoreSaves + e2.scoreSaves,
                 e1.pagexraySaves + e2.pagexraySaves, e2.aborted)
  }

  /** Only advice saves. */
  predicate AdviceOnly(e: Effects)
  {
    e.points == [] && e.scoreSaves == [] && e.pagexraySaves == []
  }

  /** Only pagexray saves. */
  predicate PagexrayOnly(e: Effects)
  {
    e.points == [] && e.adviceSaves == [] && e.scoreSaves == []
  }

  /** A loop whose body is `f`, run over `xs` in order until a body throws. */
  function Fold<T>(f: T -> Effects, xs: seq<T>): Effects
  {
    if |xs| == 0 then NoEffects else Then(Fold(f, xs[..|xs| - 1]), f(xs[|xs| - 1]))
  }

  lemma FoldStep<T>(f: T -> Effects, xs: seq<T>, i: nat)
    requires i < |xs|
    ensures Fold(f, xs[..i + 1]) == Then(Fold(f, xs[..i]), f(xs[i]))
  {
    assert xs[..i + 1][..i] == xs[..i];
  }

  /** Once a body throws, the rest of the loop does nothing. */
  lemma {:induction false} FoldAbortSticks<T>(f: T -> Effects, xs: seq<T>, n: nat)
    requires n <= |xs| && Fold(f, xs[..n]).aborted
    ensures Fold(f, xs) == Fold(f, xs[..n])
  {
    if n < |xs| {
      assert xs[..|xs| - 1][..n] == xs[..n];
      FoldAbortSticks(f, xs[..|xs| - 1], n);
    } else {
      assert xs[..n] == xs;
    }
  }

  /** The loop throws exactly when one of its bodies does. */
  lemma {:induction false} FoldAborts<T>(f: T -> Effects, xs: seq<T>)
    ensures Fold(f, xs).aborted <==> exists i :: 0 <= i < |xs| && f(xs[i]).aborted
  {
    if |xs| > 0 {
      var n := |xs| - 1;
      FoldAborts(f, xs[..n]);
      if Fold(f, xs[..n]).aborted {
        var i :| 0 <= i < n && f(xs[..n][i]).aborted;
        assert xs[..n][i] == xs[i];
      }
      if exists i :: 0 <= i < |xs| && f(xs[i]).aborted {
        var i :| 0 <= i < |xs| && f(xs[i]).aborted;
        if i < n {
          assert xs[..n][i] == xs[i];
        }
      }
    }
  }

  /** A loop of bodies that only save advice only saves advice. */
  lemma {:induction false} FoldAdviceOnly<T>(f: T -> Effects, xs: seq<T>)
    requires forall x :: AdviceOnly(f(x))
    ensures AdviceOnly(Fold(f, xs))
  {
    if |xs| > 0 {
      FoldAdviceOnly(f, xs[..|xs| - 1]);
    }
  }

  lemma {:induction false} FoldPagexrayOnly<T>(f: T -> Effects, xs: seq<T>)
    requires forall x :: PagexrayOnly(f(x))
    ensures PagexrayOnly(Fold(f, xs))
  {
    if |xs| > 0 {
      FoldPagexrayOnly(f, xs[..|xs| - 1]);
    }
  }

  /** Every advice save of a loop is one of its bodies' saves, and when the
      loop runs to its end, every body's save is the loop's. */
  lemma {:induction false} FoldAdviceSaves<T>(f: T -> Effects, xs: seq<T>, s: CoachDataService.AdviceSave)
    ensures s in Fold(f, xs).adviceSaves ==> exists i :: 0 <= i < |xs| && s in f(xs[i]).adviceSaves
    ensures !Fold(f, xs).aborted ==>
      ((exists i :: 0 <= i < |xs| && s in f(xs[i]).adviceSaves) ==> s in Fold(f, xs).adviceSaves)
  {
    if |xs| > 0 {
      var n := |xs| - 1;
      var before := Fold(f, xs[..n]);
      FoldAdviceSaves(f, xs[..n], s);
      if s in before.adviceSaves {
        var i :| 0 <= i < n && s in f(xs[..n][i]).adviceSaves;
        assert xs[..n][i] == xs[i];
      }
      if !Fold(f, xs).aborted && exists i :: 0 <= i < |xs| && s in f(xs[i]).adviceSaves {
        var i :| 0 <= i < |xs| && s in f(xs[i]).adviceSaves;
        if i < n {
          assert xs[..n][i] == xs[i];
        }
      }
    }
  }

  /** Every point a loop writes is one of its bodies' points. */
  lemma {:induction false} FoldPoints<T>(f: T -> Effects, xs: seq<T>, p: Point)
    ensures p in Fold(f, xs).points ==> exists i :: 0 <= i < |xs| && p in f(xs[i]).points
  {
    if |xs| > 0 {
      var n := |xs| - 1;
      FoldPoints(f, xs[..n], p);
      if p in Fold(f, xs[..n]).points {
        var i :| 0 <= i < n && p in f(xs[..n][i]).points;
        assert xs[..n][i] == xs[i];
      }
    }
  }

  /** A loop each of whose bodies makes exactly one pagexray save runs to
      its end with those saves, in order. */
  lemma {:induction false} FoldOneSaveEach<T>(f: T -> Effects, g: T -> PagexrayDataService.PagexraySave, xs: seq<T>)
    requires forall i :: 0 <= i < |xs| ==> f(xs[i]) == NoEffects.(pagexraySaves := [g(xs[i])])
    ensures !Fold(f, xs).aborted && |Fold(f, xs).pagexraySaves| == |xs|
    ensures forall i :: 0 <= i < |xs| ==> Fold(f, xs).pagexraySaves[i] == g(xs[i])
  {
    if |xs| > 0 {
      var n := |xs| - 1;
      assert forall i :: 0 <= i < n ==> xs[..n][i] == xs[i];
      FoldOneSaveEach(f, g, xs[..n]);
    }
  }

  // ---------------------------------------------------------------------
  // Timing document: visual metrics, additional metrics, media

  /** `pageinfo?.url || info?.url || url || 'unknown_url'`. */
  function BrowsertimeUrl(bt: Json): (url: Json)
    ensures var a, b, c := OptProp(Prop(bt, "pageinfo"), "url"), OptProp(Prop(bt, "info"), "url"), Prop(bt, "url");
      && (Truthy(a) ==> Some(url) == a)
      && (!Truthy(a) && Truthy(b) ==> Some(url) == b)
      && (!Truthy(a) && !Truthy(b) && Truthy(c) ==> Some(url) == c)
      && (!Truthy(a) && !Truthy(b) && !Truthy(c) ==> url == JStr("unknown_url"))
  {
    OrDefault(Or(Or(OptProp(Prop(bt, "pageinfo"), "url"), OptProp(Prop(bt, "info"), "url")), Prop(bt, "url")),
              JStr("unknown_url"))
  }

  /** The value a visual-metric entry offers: the `median` of an object
      (arrays included), the number itself, otherwise null. */
  function VisualMetricValue(m: Json): Value
  {
    if m.JObj? || m.JArr? then Prop(m, "median")
    else if m.JNum? then Some(m)
    else Some(JNull)
  }

  /** Neither undefined, nor null, nor NaN. */
  predicate Writable(v: Value)
  {
    v.Some? && v.value != JNull && !IsNaN(v.value)
  }

  function MetricPoint(testId: string, url: Json, browser: string, name: string, value: Json): Point
  {
    Point("visualMetrics",
          map["test_id" := JStr(testId), "url" := url, "browser" := JStr(browser), "metricName" := JStr(name)],
          map["value" := FloatField(value)])
  }

  /** The points written for a list of (name, value) candidates. */
  function MetricPoints(testId: string, url: Json, browser: string, ms: seq<(string, Value)>): seq<Point>
  {
    if |ms| == 0 then []
    else
      var rest := MetricPoints(testId, url, browser, ms[..|ms| - 1]);
      var m := ms[|ms| - 1];
      if Writable(m.1) then rest + [MetricPoint(testId, url, browser, m.0, m.1.value)] else rest
  }

  function VisualCandidates(es: seq<(string, Json)>): (ms: seq<(string, Value)>)
    ensures |ms| == |es|
    ensures forall i :: 0 <= i < |es| ==> ms[i] == (es[i].0, VisualMetricValue(es[i].1))
  {
    seq(|es|, i requires 0 <= i < |es| => (es[i].0, VisualMetricValue(es[i].1)))
  }

  /** `for (const metricName in visualMetrics)` when `visualMetrics` is truthy. */
  function VisualMetricsOf(bt: Json): seq<(string, Value)>
  {
    var vm := Prop(bt, "visualMetrics");
    if Truthy(vm) then VisualCandidates(Entries(vm.value)) else []
  }

  /** The `additionalMetrics` object, in its declaration order. */
  function AdditionalMetrics(bt: Json): (ms: seq<(string, Value)>)
    ensures |ms| == 8
  {
    var timings := Prop(bt, "timings");
    var vitals := Prop(bt, "googleWebVitals");
    var pageTimings := OptProp(timings, "pageTimings");
    [("firstPaint", OptProp(timings, "firstPaint")),
     ("firstContentfulPaint", OptProp(vitals, "firstContentfulPaint")),
     ("largestContentfulPaint", OptProp(vitals, "largestContentfulPaint")),
     ("ttfb", OptProp(timings, "ttfb")),
     ("domInteractive", OptProp(pageTimings, "domInteractiveTime")),
     ("pageLoadTime", OptProp(pageTimings, "pageLoadTime")),
     ("fullyLoaded", Prop(bt, "fullyLoaded")),
     ("TotalBlockingTime", OptProp(vitals, "totalBlockingTime"))]
  }

  function VideoPath(folder: string): string
  {
    "pages/" + folder + "/data/video/1.mp4"
  }

  function ScreenshotPath(folder: string): string
  {
    "pages/" + folder + "/data/screenshots/1/largestContentfulPaint.png"
  }

  function MediaPoint(testId: string, url: Json, folder: string): Point
  {
    Point("media_assets",
          map["test_id" := JStr(testId), "url" := url, "group" := JStr(folder)],
          map["video_path" := StringField(JStr(VideoPath(folder))),
              "lcp_screenshot_path" := StringField(JStr(ScreenshotPath(folder)))])
  }

  /** The points one non-null timing document produces. */
  function BrowsertimePoints(testId: string, browser: string, folder: string, bt: Json): seq<Point>
  {
    var url := BrowsertimeUrl(bt);
    MetricPoints(testId, url, browser, VisualMetricsOf(bt))
      + MetricPoints(testId, url, browser, AdditionalMetrics(bt))
      + [MediaPoint(testId, url, folder)]
  }

  /** A null document throws at `browsertimeData.visualMetrics`. */
  function BrowsertimeEffects(testId: string, browser: string, folder: string, a: Artifact): (e: Effects)
    ensures e.adviceSaves == [] && e.scoreSaves == [] && e.pagexraySaves == []
  {
    match a
    case Absent => NoEffects
    case Malformed => Abort
    case Parsed(bt) => if bt == JNull then Abort else NoEffects.(points := BrowsertimePoints(testId, browser, folder, bt))
  }

  // ---------------------------------------------------------------------
  // Advice document

  /** The save for one advice item: only when its score is defined. */
  function ItemSaves(testId: string, url: Json, folder: string, categoryName: string, adviceId: string, item: Json)
    : (ss: seq<CoachDataService.AdviceSave>)
    ensures |ss| <= 1
    ensures |ss| == 1 <==> Prop(item, "score").Some?
  {
    var score := Prop(item, "score");
    if score.None? then []
    else [CoachDataService.AdviceSave(JStr(testId), url, JStr(folder), JStr(categoryName), JStr(adviceId), score.value,
                                      OrDefault(Prop(item, "title"), JStr(adviceId)),
                                      OrDefault(Prop(item, "description"), JStr("")))]
  }

  /** A null advice item throws at `adviceItem.score`. */
  function ItemEffects(testId: string, url: Json, folder: string, categoryName: string, item: (string, Json)): (e: Effects)
    ensures AdviceOnly(e)
  {
    if item.1 == JNull then Abort
    else NoEffects.(adviceSaves := ItemSaves(testId, url, folder, categoryName, item.0, item.1))
  }

  function ItemBody(testId: string, url: Json, folder: string, categoryName: string): ((string, Json)) -> Effects
  {
    item => ItemEffects(testId, url, folder, categoryName, item)
  }

  /** The `adviceList` loop. */
  function ItemsEffects(testId: string, url: Json, folder: string, categoryName: string, items: seq<(string, Json)>)
    : (e: Effects)
    ensures AdviceOnly(e)
  {
    FoldAdviceOnly(ItemBody(testId, url, folder, categoryName), items);
    Fold(ItemBody(testId, url, folder, categoryName), items)
  }

  /** The pseudo-row for a category with a defined score: advice id and
      title are the category name, the description is ''. */
  function CategoryRow(testId: string, url: Json, folder: string, categoryName: string, category: Json)
    : (ss: seq<CoachDataService.AdviceSave>)
    ensures |ss| == 1 <==> Prop(category, "score").Some?
    ensures |ss| <= 1
    ensures |ss| == 1 ==>
      ss[0] == CoachDataService.AdviceSave(JStr(testId), url, JStr(folder), JStr(categoryName), JStr(categoryName),
                                           Prop(category, "score").value, JStr(categoryName), JStr(""))
  {
    var score := Prop(category, "score");
    if score.None? then []
    else [CoachDataService.AdviceSave(JStr(testId), url, JStr(folder), JStr(categoryName), JStr(categoryName),
                                      score.value, JStr(categoryName), JStr(""))]
  }

  /** The items of `adviceList` when it is truthy. */
  function AdviceItemsOf(category: Json): seq<(string, Json)>
  {
    var list := Prop(category, "adviceList");
    if Truthy(list) then Entries(list.value) else []
  }

  /** A null category throws at `category.adviceList`. */
  function CategoryEffects(testId: string, url: Json, folder: string, category: (string, Json)): (e: Effects)
    ensures AdviceOnly(e)
  {
    if category.1 == JNull then Abort
    else Then(ItemsEffects(testId, url, folder, category.0, AdviceItemsOf(category.1)),
              NoEffects.(adviceSaves := CategoryRow(testId, url, folder, category.0, category.1)))
  }

  function CategoryBody(testId: string, url: Json, folder: string): ((string, Json)) -> Effects
  {
    category => CategoryEffects(testId, url, folder, category)
  }

  /** The `for (const categoryName in adviceRoot)` loop. */
  function CategoriesEffects(testId: string, url: Json, folder: string, cats: seq<(string, Json)>): (e: Effects)
    ensures AdviceOnly(e)
  {
    FoldAdviceOnly(CategoryBody(testId, url, folder), cats);
    Fold(CategoryBody(testId, url, folder), cats)
  }

  /** `categoryScores`: the `score` of the three named categories of the
      advice root, whatever their items say. */
  function CategoryScores(root: Json): (s: CoachDataService.ScoresArg)
    ensures s.performance == OptProp(Prop(root, "performance"), "score")
    ensures s.privacy == OptProp(Prop(root, "privacy"), "score")
    ensures s.bestpractice == OptProp(Prop(root, "bestpractice"), "score")
  {
    CoachDataService.ScoresArg(OptProp(Prop(root, "performance"), "score"),
                               OptProp(Prop(root, "privacy"), "score"),
                               OptProp(Prop(root, "bestpractice"), "score"))
  }

  /** `coachData.url || 'unknown_url'` */
  function CoachUrl(doc: Json): Json
  {
    OrDefault(Prop(doc, "url"), JStr("unknown_url"))
  }

  /** A null document throws at `coachData.advice`; a falsy advice root does
      nothing; otherwise every category, then the three scores. */
  function CoachEffects(testId: string, folder: string, a: Artifact): (e: Effects)
    ensures e.points == [] && e.pagexraySaves == []
  {
    match a
    case Absent => NoEffects
    case Malformed => Abort
    case Parsed(doc) =>
      if doc == JNull then Abort
      else
        var root := Prop(doc, "advice");
        if !Truthy(root) then NoEffects
        else Then(CategoriesEffects(testId, CoachUrl(doc), folder, Entries(root.value)),
                  NoEffects.(scoreSaves := [(JStr(testId), CategoryScores(root.value))]))
  }

  // ---------------------------------------------------------------------
  // Content-breakdown document

  /** `data[field]?.median ?? data[field]` */
  function SizeOf(data: Json, field: string): (v: Value)
    ensures OptProp(Prop(data, field), "median").Some? && OptProp(Prop(data, field), "median").value != JNull ==>
      v == OptProp(Prop(data, field), "median")
    ensures OptProp(Prop(data, field), "median").None? || OptProp(Prop(data, field), "median").value == JNull ==>
      v == Prop(data, field)
  {
    Coalesce(OptProp(Prop(data, field), "median"), Prop(data, field))
  }

  function TypeSave(testId: string, browser: string, folder: string, url: Json, contentType: string, data: Json)
    : PagexrayDataService.PagexraySave
  {
    PagexrayDataService.PagexraySave(JStr(testId), url, JStr(folder), JStr(browser), JStr(contentType),
                                     Prop(data, "requests"), SizeOf(data, "contentSize"), SizeOf(data, "transferSize"))
  }

  /** A null entry throws at `data.requests`. */
  function TypeEffects(testId: string, browser: string, folder: string, url: Json, ct: (string, Json)): (e: Effects)
    ensures PagexrayOnly(e)
  {
    if ct.1 == JNull then Abort
    else NoEffects.(pagexraySaves := [TypeSave(testId, browser, folder, url, ct.0, ct.1)])
  }

  function TypeBody(testId: string, browser: string, folder: string, url: Json): ((string, Json)) -> Effects
  {
    ct => TypeEffects(testId, browser, folder, url, ct)
  }

  /** The `for (const contentType in contentTypes)` loop. */
  function TypesEffects(testId: string, browser: string, folder: string, url: Json, cts: seq<(string, Json)>): (e: Effects)
    ensures PagexrayOnly(e)
  {
    FoldPagexrayOnly(TypeBody(testId, browser, folder, url), cts);
    Fold(TypeBody(testId, browser, folder, url), cts)
  }

  /** `pagexrayData.url || 'unknown_url'` */
  function PagexrayUrl(doc: Json): Json
  {
    OrDefault(Prop(doc, "url"), JStr("unknown_url"))
  }

  /** A null document throws at `pagexrayData.url`; a falsy `contentTypes`
      does nothing. */
  function PagexrayEffects(testId: string, browser: string, folder: string, a: Artifact): (e: Effects)
    ensures PagexrayOnly(e)
  {
    match a
    case Absent => NoEffects
    case Malformed => Abort
    case Parsed(doc) =>
      if doc == JNull then Abort
      else
        var cts := Prop(doc, "contentTypes");
        if Truthy(cts) then TypesEffects(testId, browser, folder, PagexrayUrl(doc), Entries(cts.value)) else NoEffects
  }

  // ---------------------------------------------------------------------
  // Pages and the run

  /** A page folder without a data directory is skipped; otherwise its
      timing, advice and content-breakdown sections run in that order. */
  function PageEffects(testId: string, browser: string, page: Page): Effects
  {
    match page.data
    case None => NoEffects
    case Some(d) =>
      Then(Then(BrowsertimeEffects(testId, browser, page.folder, d.browsertime),
                CoachEffects(testId, page.folder, d.coach)),
           PagexrayEffects(testId, browser, page.folder, d.pagexray))
  }

  function PageBody(testId: string, browser: string): Page -> Effects
  {
    page => PageEffects(testId, browser, page)
  }

  /** The `for (const pageFolder of pageFolders)` loop. */
  function RunEffects(testId: string, browser: string, pages: seq<Page>): Effects
  {
    Fold(PageBody(testId, browser), pages)
  }

  /** The four relational tables a run writes. */
  datatype Tables = Tables(
    advice: CoachDataService.AdviceTable,
    testRuns: map<Json, CoachDataService.TestRunRow>,
    scores: map<Json, CoachDataService.ScoresRow>,
    pagexray: PagexrayDataService.PagexrayTable)

  /** The tables after one `processAndStoreDetailedResults` call: the
      test-run upsert, then every save of the walk (none without a pages
      directory). */
  function StoredAfterRun(tb: Tables, testId: string, browser: string, pages: Option<seq<Page>>, now: nat): Tables
  {
    var e := if pages.Some? then RunEffects(testId, browser, pages.value) else NoEffects;
    Tables(CoachDataService.ApplyAdviceSaves(tb.advice, e.adviceSaves, now),
           CoachDataService.UpsertTestRun(tb.testRuns, JStr(testId), JStr(browser), now),
           CoachDataService.ApplyScoreSaves(tb.scores, e.scoreSaves, now),
           PagexrayDataService.ApplyPagexraySaves(tb.pagexray, e.pagexraySaves, now))
  }

  // ---------------------------------------------------------------------
  // Properties

  /** Every metric point comes from a writable candidate. */
  lemma {:induction false} MetricPointsFrom(testId: string, url: Json, browser: string, ms: seq<(string, Value)>, p: Point)
    ensures p in MetricPoints(testId, url, browser, ms) ==>
      exists i :: 0 <= i < |ms| && Writable(ms[i].1) && p == MetricPoint(testId, url, browser, ms[i].0, ms[i].1.value)
  {
    if |ms| > 0 {
      var n := |ms| - 1;
      var init := ms[..n];
      MetricPointsFrom(testId, url, browser, init, p);
      if p in MetricPoints(testId, url, browser, init) {
        var i :| 0 <= i < |init| && Writable(init[i].1) && p == MetricPoint(testId, url, browser, init[i].0, init[i].1.value);
        assert init[i] == ms[i];
      }
    }
  }

  /** Every writable candidate gives its metric point. */
  lemma {:induction false} MetricPointsOf(testId: string, url: Json, browser: string, ms: seq<(string, Value)>, i: nat)
    requires i < |ms| && Writable(ms[i].1)
    ensures MetricPoint(testId, url, browser, ms[i].0, ms[i].1.value) in MetricPoints(testId, url, browser, ms)
  {
    var n := |ms| - 1;
    if i < n {
      var init := ms[..n];
      assert init[i] == ms[i];
      MetricPointsOf(testId, url, browser, init, i);
    }
  }

  /** The metric points are exactly one per candidate whose value is
      neither undefined, nor null, nor NaN; no such value is turned into 0. */
  lemma MetricPointsExactly(testId: string, url: Json, browser: string, ms: seq<(string, Value)>, p: Point)
    ensures p in MetricPoints(testId, url, browser, ms) <==>
      exists i :: 0 <= i < |ms| && Writable(ms[i].1) && p == MetricPoint(testId, url, browser, ms[i].0, ms[i].1.value)
  {
    MetricPointsFrom(testId, url, browser, ms, p);
    if exists i :: 0 <= i < |ms| && Writable(ms[i].1) && p == MetricPoint(testId, url, browser, ms[i].0, ms[i].1.value) {
      var i :| 0 <= i < |ms| && Writable(ms[i].1) && p == MetricPoint(testId, url, browser, ms[i].0, ms[i].1.value);
      MetricPointsOf(testId, url, browser, ms, i);
    }
  }

  /** A `visualMetrics` point: the four tags and exactly one float field
      `value`, which is neither null nor NaN. */
  predicate IsMetricPoint(p: Point, testId: string, browser: string)
  {
    && p.measurement == "visualMetrics"
    && p.tags.Keys == {"test_id", "url", "browser", "metricName"}
    && p.tags["test_id"] == JStr(testId) && p.tags["browser"] == JStr(browser)
    && p.fields.Keys == {"value"}
    && p.fields["value"].FloatField? && p.fields["value"].f != JNull && !IsNaN(p.fields["value"].f)
  }

  lemma {:induction false} MetricPointsShape(testId: string, url: Json, browser: string, ms: seq<(string, Value)>)
    ensures forall p :: p in MetricPoints(testId, url, browser, ms) ==> IsMetricPoint(p, testId, browser)
  {
    forall p | p in MetricPoints(testId, url, browser, ms)
      ensures IsMetricPoint(p, testId, browser)
    {
      MetricPointsFrom(testId, url, browser, ms, p);
    }
  }

  /** What one visual-metric entry contributes: an object its writable
      `median`, a number itself, anything else nothing. */
  lemma VisualMetricContribution(testId: string, url: Json, browser: string, name: string, m: Json)
    ensures (m.JObj? || m.JArr?) && Writable(Prop(m, "median")) ==>
      MetricPoints(testId, url, browser, [(name, VisualMetricValue(m))]) == [MetricPoint(testId, url, browser, name, Prop(m, "median").value)]
    ensures m.JNum? ==>
      MetricPoints(testId, url, browser, [(name, VisualMetricValue(m))]) == [MetricPoint(testId, url, browser, name, m)]
    ensures (m.JObj? || m.JArr?) && !Writable(Prop(m, "median")) ==>
      MetricPoints(testId, url, browser, [(name, VisualMetricValue(m))]) == []
    ensures !(m.JObj? || m.JArr? || m.JNum?) ==> MetricPoints(testId, url, browser, [(name, VisualMetricValue(m))]) == []
  {
    var ms := [(name, VisualMetricValue(m))];
    assert ms[..0] == [];
    if m.JNum? {
      assert ToNumber(m) == Some(m.n);
    }
  }

  /** Two candidate lists followed by a media point: metric points, then
      the media point last. */
  lemma PointsLayout(testId: string, url: Json, browser: string, folder: string,
                     xs: seq<(string, Value)>, ys: seq<(string, Value)>)
    ensures var pts := MetricPoints(testId, url, browser, xs) + MetricPoints(testId, url, browser, ys) + [MediaPoint(testId, url, folder)];
      && |pts| > 0
      && pts[|pts| - 1] == MediaPoint(testId, url, folder)
      && forall i :: 0 <= i < |pts| - 1 ==> IsMetricPoint(pts[i], testId, browser)
  {
    var a := MetricPoints(testId, url, browser, xs);
    var b := MetricPoints(testId, url, browser, ys);
    var pts := a + b + [MediaPoint(testId, url, folder)];
    MetricPointsShape(testId, url, browser, xs);
    MetricPointsShape(testId, url, browser, ys);
    forall i | 0 <= i < |pts| - 1
      ensures IsMetricPoint(pts[i], testId, browser)
    {
      if i < |a| {
        assert pts[i] == a[i] && a[i] in a;
      } else {
        assert pts[i] == b[i - |a|] && b[i - |a|] in b;
      }
    }
  }

  /** A timing document yields only metric points and then exactly one
      media point, the last, whatever its metrics hold. */
  lemma BrowsertimePointsShape(testId: string, browser: string, folder: string, bt: Json)
    ensures var pts := BrowsertimePoints(testId, browser, folder, bt);
      && |pts| > 0
      && pts[|pts| - 1] == MediaPoint(testId, BrowsertimeUrl(bt), folder)
      && forall i :: 0 <= i < |pts| - 1 ==> IsMetricPoint(pts[i], testId, browser)
  {
    PointsLayout(testId, BrowsertimeUrl(bt), browser, folder, VisualMetricsOf(bt), AdditionalMetrics(bt));
  }

  /** Two writable candidates, one from each list, give two points, the
      first list's before the second's. */
  lemma BothWritten(testId: string, url: Json, browser: string, xs: seq<(string, Value)>, ys: seq<(string, Value)>,
                    tail: seq<Point>, i: nat, j: nat)
    requires i < |xs| && Writable(xs[i].1) && j < |ys| && Writable(ys[j].1)
    ensures var pts := MetricPoints(testId, url, browser, xs) + MetricPoints(testId, url, browser, ys) + tail;
      exists k, l :: 0 <= k < l < |pts| && pts[k] == MetricPoint(testId, url, browser, xs[i].0, xs[i].1.value) &&
        pts[l] == MetricPoint(testId, url, browser, ys[j].0, ys[j].1.value)
  {
    var a := MetricPoints(testId, url, browser, xs);
    var b := MetricPoints(testId, url, browser, ys);
    var p := MetricPoint(testId, url, browser, xs[i].0, xs[i].1.value);
    var q := MetricPoint(testId, url, browser, ys[j].0, ys[j].1.value);
    MetricPointsOf(testId, url, browser, xs, i);
    MetricPointsOf(testId, url, browser, ys, j);
    InOrder(a, b, tail, p, q);
  }

  /** An element of the first part comes before an element of the second. */
  lemma InOrder<T>(a: seq<T>, b: seq<T>, tail: seq<T>, p: T, q: T)
    requires p in a && q in b
    ensures exists k, l :: 0 <= k < l < |a + b + tail| && (a + b + tail)[k] == p && (a + b + tail)[l] == q
  {
    var k :| 0 <= k < |a| && a[k] == p;
    var l :| 0 <= l < |b| && b[l] == q;
    assert (a + b + tail)[k] == p;
    assert (a + b + tail)[|a| + l] == q;
  }

  /** A secondary metric is written even when a visual metric of the same
      name already was: one page can carry two points for one name. */
  lemma DuplicateNamesPossible(testId: string, browser: string, folder: string, bt: Json, i: nat, j: nat)
    requires i < |VisualMetricsOf(bt)| && Writable(VisualMetricsOf(bt)[i].1)
    requires j < |AdditionalMetrics(bt)| && Writable(AdditionalMetrics(bt)[j].1)
    requires VisualMetricsOf(bt)[i].0 == AdditionalMetrics(bt)[j].0
    ensures var pts, url, name := BrowsertimePoints(testId, browser, folder, bt), BrowsertimeUrl(bt), AdditionalMetrics(bt)[j].0;
      exists k, l :: 0 <= k < l < |pts| &&
        pts[k] == MetricPoint(testId, url, browser, name, VisualMetricsOf(bt)[i].1.value) &&
        pts[l] == MetricPoint(testId, url, browser, name, AdditionalMetrics(bt)[j].1.value)
  {
    var url := BrowsertimeUrl(bt);
    var vs, ad := VisualMetricsOf(bt), AdditionalMetrics(bt);
    assert BrowsertimePoints(testId, browser, folder, bt) ==
      MetricPoints(testId, url, browser, vs) + MetricPoints(testId, url, browser, ad) + [MediaPoint(testId, url, folder)];
    BothWritten(testId, url, browser, vs, ad, [MediaPoint(testId, url, folder)], i, j);
  }

  /** The eight secondary metrics, in order; every name is one of the
      metrics the performance transformer selects. */
  lemma AdditionalMetricsNames(bt: Json)
    ensures var ms := AdditionalMetrics(bt);
      [ms[0].0, ms[1].0, ms[2].0, ms[3].0, ms[4].0, ms[5].0, ms[6].0, ms[7].0] ==
      ["firstPaint", "firstContentfulPaint", "largestContentfulPaint", "ttfb",
       "domInteractive", "pageLoadTime", "fullyLoaded", "TotalBlockingTime"]
    ensures forall i :: 0 <= i < |AdditionalMetrics(bt)| ==> AdditionalMetrics(bt)[i].0 in PerformanceTransformer.MetricNames
  {
  }

  /** A document without `timings` or without `googleWebVitals` leaves the
      metrics read from it undefined: they are skipped, not written as 0. */
  lemma AdditionalMetricsAbsent(bt: Json)
    ensures var ms := AdditionalMetrics(bt);
      Prop(bt, "timings").None? ==>
        !Writable(ms[0].1) && !Writable(ms[3].1) && !Writable(ms[4].1) && !Writable(ms[5].1)
    ensures var ms := AdditionalMetrics(bt);
      Prop(bt, "googleWebVitals").None? ==> !Writable(ms[1].1) && !Writable(ms[2].1) && !Writable(ms[7].1)
  {
  }

  /** The saved advice item carries the page's test, URL, folder and
      category, the item's id and score; its title falls back to the
      advice id and its description to ''. */
  lemma ItemSaveFields(testId: string, url: Json, folder: string, categoryName: string, adviceId: string, item: Json)
    requires Prop(item, "score").Some?
    ensures var s := ItemSaves(testId, url, folder, categoryName, adviceId, item)[0];
      && s.testId == JStr(testId) && s.url == url && s.groupName == JStr(folder)
      && s.categoryName == JStr(categoryName) && s.adviceId == JStr(adviceId)
      && Some(s.score) == Prop(item, "score")
      && (Truthy(Prop(item, "title")) ==> Some(s.title) == Prop(item, "title"))
      && (!Truthy(Prop(item, "title")) ==> s.title == JStr(adviceId))
      && (Truthy(Prop(item, "description")) ==> Some(s.description) == Prop(item, "description"))
      && (!Truthy(Prop(item, "description")) ==> s.description == JStr(""))
  {
  }

  /** No advice item of the category is null. */
  predicate NoNullItems(category: Json)
  {
    forall i :: 0 <= i < |AdviceItemsOf(category)| ==> AdviceItemsOf(category)[i].1 != JNull
  }

  /** On items none of which is null, the loop runs to its end and saves
      exactly the items' saves: one per item with a defined score. */
  lemma ItemsSaves(testId: string, url: Json, folder: string, categoryName: string,
                   items: seq<(string, Json)>, s: CoachDataService.AdviceSave)
    requires forall i :: 0 <= i < |items| ==> items[i].1 != JNull
    ensures !ItemsEffects(testId, url, folder, categoryName, items).aborted
    ensures s in ItemsEffects(testId, url, folder, categoryName, items).adviceSaves <==>
      exists i :: 0 <= i < |items| && s in ItemSaves(testId, url, folder, categoryName, items[i].0, items[i].1)
  {
    var f := ItemBody(testId, url, folder, categoryName);
    assert forall i :: 0 <= i < |items| ==>
      f(items[i]) == NoEffects.(adviceSaves := ItemSaves(testId, url, folder, categoryName, items[i].0, items[i].1));
    FoldAborts(f, items);
    FoldAdviceSaves(f, items, s);
  }

  lemma CategoryDoesNotAbort(testId: string, url: Json, folder: string, category: (string, Json))
    requires category.1 != JNull && NoNullItems(category.1)
    ensures !CategoryEffects(testId, url, folder, category).aborted
  {
    FoldAborts(ItemBody(testId, url, folder, category.0), AdviceItemsOf(category.1));
  }

  /** A category without null items saves those of its items with a
      defined score, then its own pseudo-row, and nothing else. */
  lemma CategorySaves(testId: string, url: Json, folder: string, category: (string, Json), s: CoachDataService.AdviceSave)
    requires category.1 != JNull && NoNullItems(category.1)
    ensures !CategoryEffects(testId, url, folder, category).aborted
    ensures var items := AdviceItemsOf(category.1);
      s in CategoryEffects(testId, url, folder, category).adviceSaves <==>
      || (exists i :: 0 <= i < |items| && s in ItemSaves(testId, url, folder, category.0, items[i].0, items[i].1))
      || s in CategoryRow(testId, url, folder, category.0, category.1)
  {
    ItemsSaves(testId, url, folder, category.0, AdviceItemsOf(category.1), s);
  }

  /** On an advice root without null categories or items, the category loop
      runs to its end, and a save is made exactly when one of the categories
      makes it. */
  lemma CategoriesSaves(testId: string, url: Json, folder: string, cats: seq<(string, Json)>, s: CoachDataService.AdviceSave)
    requires forall i :: 0 <= i < |cats| ==> cats[i].1 != JNull && NoNullItems(cats[i].1)
    ensures !CategoriesEffects(testId, url, folder, cats).aborted
    ensures s in CategoriesEffects(testId, url, folder, cats).adviceSaves <==>
      exists i :: 0 <= i < |cats| && s in CategoryEffects(testId, url, folder, cats[i]).adviceSaves
  {
    var f := CategoryBody(testId, url, folder);
    forall i | 0 <= i < |cats|
      ensures !f(cats[i]).aborted
    {
      CategoryDoesNotAbort(testId, url, folder, cats[i]);
    }
    FoldAborts(f, cats);
    FoldAdviceSaves(f, cats, s);
  }

  /** Every save of a category loop belongs to the run's test, the page's
      URL and folder, and to its item's category. */
  lemma ItemsSavesOwned(testId: string, url: Json, folder: string, categoryName: string, items: seq<(string, Json)>)
    ensures forall s :: s in ItemsEffects(testId, url, folder, categoryName, items).adviceSaves ==>
      s.testId == JStr(testId) && s.groupName == JStr(folder) && s.url == url && s.categoryName == JStr(categoryName)
  {
    forall s | s in ItemsEffects(testId, url, folder, categoryName, items).adviceSaves
      ensures s.testId == JStr(testId) && s.groupName == JStr(folder) && s.url == url && s.categoryName == JStr(categoryName)
    {
      FoldAdviceSaves(ItemBody(testId, url, folder, categoryName), items, s);
      var i :| 0 <= i < |items| && s in ItemBody(testId, url, folder, categoryName)(items[i]).adviceSaves;
    }
  }

  /** Every save of one category belongs to the run's test, the page's URL
      and folder, and to that category. */
  lemma CategorySavesOwned(testId: string, url: Json, folder: string, c: (string, Json), s: CoachDataService.AdviceSave)
    requires s in CategoryEffects(testId, url, folder, c).adviceSaves
    ensures s.testId == JStr(testId) && s.groupName == JStr(folder) && s.url == url && s.categoryName == JStr(c.0)
  {
    if s in ItemsEffects(testId, url, folder, c.0, AdviceItemsOf(c.1)).adviceSaves {
      ItemsSavesOwned(testId, url, folder, c.0, AdviceItemsOf(c.1));
    }
  }

  lemma CategoriesSavesOwned(testId: string, url: Json, folder: string, cats: seq<(string, Json)>)
    ensures forall s :: s in CategoriesEffects(testId, url, folder, cats).adviceSaves ==>
      s.testId == JStr(testId) && s.groupName == JStr(folder) && s.url == url
  {
    forall s | s in CategoriesEffects(testId, url, folder, cats).adviceSaves
      ensures s.testId == JStr(testId) && s.groupName == JStr(folder) && s.url == url
    {
      FoldAdviceSaves(CategoryBody(testId, url, folder), cats, s);
      var i :| 0 <= i < |cats| && s in CategoryBody(testId, url, folder)(cats[i]).adviceSaves;
      CategorySavesOwned(testId, url, folder, cats[i], s);
    }
  }

  /** On a content-breakdown document without null entries, the loop runs
      to its end with one save per content type, in document order. */
  lemma TypesSaves(testId: string, browser: string, folder: string, url: Json, cts: seq<(string, Json)>)
    requires forall i :: 0 <= i < |cts| ==> cts[i].1 != JNull
    ensures var e := TypesEffects(testId, browser, folder, url, cts);
      && !e.aborted && |e.pagexraySaves| == |cts|
      && forall i :: 0 <= i < |cts| ==> e.pagexraySaves[i] == TypeSave(testId, browser, folder, url, cts[i].0, cts[i].1)
  {
    var g := (ct: (string, Json)) => TypeSave(testId, browser, folder, url, ct.0, ct.1);
    FoldOneSaveEach(TypeBody(testId, browser, folder, url), g, cts);
  }

  /** How the three sections of a page combine: each kind of effect comes
      from the one section that makes it, and a throw stops the later
      sections. */
  lemma PageComposition(bt: Effects, co: Effects, px: Effects)
    requires bt.adviceSaves == [] && bt.scoreSaves == [] && bt.pagexraySaves == []
    requires co.points == [] && co.pagexraySaves == []
    requires PagexrayOnly(px)
    ensures var e := Then(Then(bt, co), px);
      && (bt.aborted ==> e == bt)
      && (!bt.aborted && co.aborted ==> e == co.(points := bt.points))
      && (!bt.aborted && !co.aborted ==> e == px.(points := bt.points, adviceSaves := co.adviceSaves, scoreSaves := co.scoreSaves))
  {
    assert bt.points + [] == bt.points;
    assert co.adviceSaves + [] == co.adviceSaves;
    assert co.scoreSaves + [] == co.scoreSaves;
  }

  /** The points of a page are those of its timing document. */
  lemma PagePoints(testId: string, browser: string, page: Page)
    ensures page.data.None? ==> PageEffects(testId, browser, page).points == []
    ensures page.data.Some? ==>
      PageEffects(testId, browser, page).points == BrowsertimeEffects(testId, browser, page.folder, page.data.value.browsertime).points
  {
    if page.data.Some? {
      var d := page.data.value;
      PageComposition(BrowsertimeEffects(testId, browser, page.folder, d.browsertime),
                      CoachEffects(testId, page.folder, d.coach),
                      PagexrayEffects(testId, browser, page.folder, d.pagexray));
    }
  }

  /** Every point of a page is a well-formed metric point of the run or a
      media point of the run. */
  lemma PagePointsShape(testId: string, browser: string, page: Page, p: Point)
    requires p in PageEffects(testId, browser, page).points
    ensures || IsMetricPoint(p, testId, browser)
            || (p.measurement == "media_assets" && "test_id" in p.tags && p.tags["test_id"] == JStr(testId))
  {
    PagePoints(testId, browser, page);
    BrowsertimeEffectsShape(testId, browser, page.folder, page.data.value.browsertime, p);
  }

  /** Every point of a timing section is a metric point of the run or its
      media point. */
  lemma BrowsertimeEffectsShape(testId: string, browser: string, folder: string, a: Artifact, p: Point)
    requires p in BrowsertimeEffects(testId, browser, folder, a).points
    ensures || IsMetricPoint(p, testId, browser)
            || (p.measurement == "media_assets" && "test_id" in p.tags && p.tags["test_id"] == JStr(testId))
  {
    var bt := a.doc;
    BrowsertimePointsShape(testId, browser, folder, bt);
    var pts := BrowsertimePoints(testId, browser, folder, bt);
    var k :| 0 <= k < |pts| && pts[k] == p;
  }

  lemma RunPointsShape(testId: string, browser: string, pages: seq<Page>)
    ensures forall p :: p in RunEffects(testId, browser, pages).points ==>
      || IsMetricPoint(p, testId, browser)
      || (p.measurement == "media_assets" && "test_id" in p.tags && p.tags["test_id"] == JStr(testId))
  {
    forall p | p in RunEffects(testId, browser, pages).points
      ensures || IsMetricPoint(p, testId, browser)
              || (p.measurement == "media_assets" && "test_id" in p.tags && p.tags["test_id"] == JStr(testId))
    {
      FoldPoints(PageBody(testId, browser), pages, p);
      var i :| 0 <= i < |pages| && p in PageBody(testId, browser)(pages[i]).points;
      PagePointsShape(testId, browser, pages[i], p);
    }
  }

  /** A throw on one page ends the run: the pages after it do nothing. */
  lemma RunStopsAtFirstThrow(testId: string, browser: string, pages: seq<Page>, n: nat)
    requires n < |pages| && !RunEffects(testId, browser, pages[..n]).aborted
    requires PageEffects(testId, browser, pages[n]).aborted
    ensures RunEffects(testId, browser, pages) == Then(RunEffects(testId, browser, pages[..n]), PageEffects(testId, browser, pages[n]))
  {
    FoldStep(PageBody(testId, browser), pages, n);
    FoldAbortSticks(PageBody(testId, browser), pages, n + 1);
  }

  /** Re-ingesting the same run leaves all four tables as one ingestion
      leaves them, with the later timestamps: no duplicate rows and no
      update applied twice. */
  lemma RerunIsIdempotent(tb: Tables, testId: string, browser: string, pages: Option<seq<Page>>, now1: nat, now2: nat)
    ensures StoredAfterRun(StoredAfterRun(tb, testId, browser, pages, now1), testId, browser, pages, now2) ==
            StoredAfterRun(tb, testId, browser, pages, now2)
  {
    var e := if pages.Some? then RunEffects(testId, browser, pages.value) else NoEffects;
    CoachDataService.ReplayIsIdempotent(tb.advice, e.adviceSaves, now1, now2);
    CoachDataService.TestRunReplayIsIdempotent(tb.testRuns, JStr(testId), JStr(browser), now1, now2);
    CoachDataService.ScoreReplayIsIdempotent(tb.scores, e.scoreSaves, now1, now2);
    PagexrayDataService.ReplayIsIdempotent(tb.pagexray, e.pagexraySaves, now1, now2);
  }

  lemma AdviceSavesOne(t: CoachDataService.AdviceTable, s: CoachDataService.AdviceSave, now: nat)
    ensures CoachDataService.ApplyAdviceSaves(t, [s], now) == CoachDataService.UpsertAdvice(t, s, now)
  {
    assert [s][..0] == [];
  }

  lemma ScoreSavesOne(t: map<Json, CoachDataService.ScoresRow>, s: (Json, CoachDataService.ScoresArg), now: nat)
    ensures CoachDataService.ApplyScoreSaves(t, [s], now) == CoachDataService.UpsertScores(t, s.0, s.1, now)
  {
    assert [s][..0] == [];
  }

  lemma PagexraySavesOne(t: PagexrayDataService.PagexrayTable, s: PagexrayDataService.PagexraySave, now: nat)
    ensures PagexrayDataService.ApplyPagexraySaves(t, [s], now) == PagexrayDataService.UpsertPagexray(t, s, now)
  {
    assert [s][..0] == [];
  }

  // ---------------------------------------------------------------------
  // The walk

  /** The visual-metrics loop. */
  method WriteVisualMetrics(writeApi: WriteApi, testId: string, url: Json, browser: string, es: seq<(string, Json)>)
    modifies writeApi
    ensures writeApi.points == old(writeApi.points) + MetricPoints(testId, url, browser, VisualCandidates(es))
    ensures writeApi.defaultTags == old(writeApi.defaultTags)
  {
    var i := 0;
    while i < |es|
      invariant 0 <= i <= |es|
      invariant writeApi.points == old(writeApi.points) + MetricPoints(testId, url, browser, VisualCandidates(es)[..i])
      invariant writeApi.defaultTags == old(writeApi.defaultTags)
    {
      var metricName := es[i].0;
      var entry := es[i].1;
      var value: Value := Some(JNull);
      if entry.JObj? || entry.JArr? {
        value := Prop(entry, "median");
      } else if entry.JNum? {
        value := Some(entry);
      }
      assert VisualCandidates(es)[..i + 1][..i] == VisualCandidates(es)[..i];
      assert VisualCandidates(es)[..i + 1][i] == (metricName, value);
      if !(value.None? || value.value == JNull || IsNaN(value.value)) {
        writeApi.WritePoint(MetricPoint(testId, url, browser, metricName, value.value));
      }
      i := i + 1;
    }
    assert VisualCandidates(es)[..i] == VisualCandidates(es);
  }

  /** The `Object.entries(additionalMetrics)` loop. */
  method WriteAdditionalMetrics(writeApi: WriteApi, testId: string, url: Json, browser: string, ms: seq<(string, Value)>)
    modifies writeApi
    ensures writeApi.points == old(writeApi.points) + MetricPoints(testId, url, browser, ms)
    ensures writeApi.defaultTags == old(writeApi.defaultTags)
  {
    var i := 0;
    while i < |ms|
      invariant 0 <= i <= |ms|
      invariant writeApi.points == old(writeApi.points) + MetricPoints(testId, url, browser, ms[..i])
      invariant writeApi.defaultTags == old(writeApi.defaultTags)
    {
      var metricName := ms[i].0;
      var value := ms[i].1;
      assert ms[..i + 1][..i] == ms[..i];
      if value.Some? && value.value != JNull && !IsNaN(value.value) {
        writeApi.WritePoint(MetricPoint(testId, url, browser, metricName, value.value));
      }
      i := i + 1;
    }
    assert ms[..i] == ms;
  }

  /** The timing section of one page. */
  method ProcessBrowsertime(writeApi: WriteApi, testId: string, browser: string, folder: string, bt: Json)
    requires bt != JNull
    modifies writeApi
    ensures writeApi.points == old(writeApi.points) + BrowsertimePoints(testId, browser, folder, bt)
    ensures writeApi.defaultTags == old(writeApi.defaultTags)
  {
    var visualMetrics := Prop(bt, "visualMetrics");
    var url := BrowsertimeUrl(bt);
    ghost var written := writeApi.points;
    ghost var visual := MetricPoints(testId, url, browser, VisualMetricsOf(bt));
    if Truthy(visualMetrics) {
      WriteVisualMetrics(writeApi, testId, url, browser, Entries(visualMetrics.value));
    } else {
      assert visual == [];
    }
    assert writeApi.points == written + visual;
    ghost var additional := MetricPoints(testId, url, browser, AdditionalMetrics(bt));
    WriteAdditionalMetrics(writeApi, testId, url, browser, AdditionalMetrics(bt));
    writeApi.WritePoint(MediaPoint(testId, url, folder));
    AppendAssoc(written, visual, additional, [MediaPoint(testId, url, folder)]);
  }

  lemma AppendAssoc<T>(w: seq<T>, a: seq<T>, b: seq<T>, c: seq<T>)
    ensures w + a + b + c == w + (a + b + c)
  {
  }

  /** The body of the `adviceList` loop for a non-null item. */
  method SaveItem(store: CoachDataService.CoachStore, testId: string, url: Json, folder: string,
                  categoryName: string, adviceId: string, adviceItem: Json, now: nat)
    modifies store
    ensures store.advice == CoachDataService.ApplyAdviceSaves(old(store.advice),
      ItemSaves(testId, url, folder, categoryName, adviceId, adviceItem), now)
    ensures store.scores == old(store.scores) && store.testRuns == old(store.testRuns)
  {
    var score := Prop(adviceItem, "score");
    var title := Prop(adviceItem, "title");
    var description := Prop(adviceItem, "description");
    if score.Some? {
      store.SaveCoachData(JStr(testId), url, JStr(folder), JStr(categoryName), JStr(adviceId), score.value,
                          OrDefault(title, JStr(adviceId)), OrDefault(description, JStr("")), now);
      ghost var saves := ItemSaves(testId, url, folder, categoryName, adviceId, adviceItem);
      AdviceSavesOne(old(store.advice), saves[0], now);
      assert saves == [saves[0]];
    }
  }

  /** One turn of the `adviceList` loop: a null item throws and ends the
      loop, any other item adds its saves. */
  lemma ItemsTurn(testId: string, url: Json, folder: string, categoryName: string, items: seq<(string, Json)>, i: nat)
    requires i < |items| && !ItemsEffects(testId, url, folder, categoryName, items[..i]).aborted
    ensures var e := ItemsEffects(testId, url, folder, categoryName, items[..i]);
      && (items[i].1 == JNull ==> ItemsEffects(testId, url, folder, categoryName, items) == e.(aborted := true))
      && (items[i].1 != JNull ==>
            ItemsEffects(testId, url, folder, categoryName, items[..i + 1]) ==
            e.(adviceSaves := e.adviceSaves + ItemSaves(testId, url, folder, categoryName, items[i].0, items[i].1)))
  {
    var f := ItemBody(testId, url, folder, categoryName);
    FoldStep(f, items, i);
    if items[i].1 == JNull {
      FoldAbortSticks(f, items, i + 1);
      assert Fold(f, items[..i]).points + [] == Fold(f, items[..i]).points;
      assert Fold(f, items[..i]).adviceSaves + [] == Fold(f, items[..i]).adviceSaves;
      assert Fold(f, items[..i]).scoreSaves + [] == Fold(f, items[..i]).scoreSaves;
      assert Fold(f, items[..i]).pagexraySaves + [] == Fold(f, items[..i]).pagexraySaves;
    }
  }

  /** The `adviceList` loop of one category. */
  method ProcessItems(store: CoachDataService.CoachStore, testId: string, url: Json, folder: string,
                      categoryName: string, items: seq<(string, Json)>, now: nat) returns (aborted: bool)
    modifies store
    ensures aborted == ItemsEffects(testId, url, folder, categoryName, items).aborted
    ensures store.advice == CoachDataService.ApplyAdviceSaves(old(store.advice),
      ItemsEffects(testId, url, folder, categoryName, items).adviceSaves, now)
    ensures store.scores == old(store.scores) && store.testRuns == old(store.testRuns)
  {
    var i := 0;
    while i < |items|
      invariant 0 <= i <= |items|
      invariant !ItemsEffects(testId, url, folder, categoryName, items[..i]).aborted
      invariant store.advice == CoachDataService.ApplyAdviceSaves(old(store.advice),
        ItemsEffects(testId, url, folder, categoryName, items[..i]).adviceSaves, now)
      invariant store.scores == old(store.scores) && store.testRuns == old(store.testRuns)
    {
      var adviceId := items[i].0;
      var adviceItem := items[i].1;
      ItemsTurn(testId, url, folder, categoryName, items, i);
      if adviceItem == JNull {
        return true;
      }
      ghost var before := ItemsEffects(testId, url, folder, categoryName, items[..i]).adviceSaves;
      SaveItem(store, testId, url, folder, categoryName, adviceId, adviceItem, now);
      CoachDataService.ApplyAdviceSavesAppend(old(store.advice), before,
        ItemSaves(testId, url, folder, categoryName, adviceId, adviceItem), now);
      i := i + 1;
    }
    assert items[..i] == items;
    aborted := false;
  }

  /** The body of the category loop. */
  method ProcessCategory(store: CoachDataService.CoachStore, testId: string, url: Json, folder: string,
                         categoryName: string, category: Json, now: nat) returns (aborted: bool)
    modifies store
    ensures aborted == CategoryEffects(testId, url, folder, (categoryName, category)).aborted
    ensures store.advice == CoachDataService.ApplyAdviceSaves(old(store.advice),
      CategoryEffects(testId, url, folder, (categoryName, category)).adviceSaves, now)
    ensures store.scores == old(store.scores) && store.testRuns == old(store.testRuns)
  {
    if category == JNull {
      return true;
    }
    var adviceList := Prop(category, "adviceList");
    ghost var items := ItemsEffects(testId, url, folder, categoryName, AdviceItemsOf(category));
    if Truthy(adviceList) {
      aborted := ProcessItems(store, testId, url, folder, categoryName, Entries(adviceList.value), now);
      if aborted {
        return;
      }
    }
    ghost var mid := store.advice;
    ghost var row := CategoryRow(testId, url, folder, categoryName, category);
    var score := Prop(category, "score");
    if score.Some? {
      store.SaveCoachData(JStr(testId), url, JStr(folder), JStr(categoryName), JStr(categoryName),
                          score.value, JStr(categoryName), JStr(""), now);
      AdviceSavesOne(mid, row[0], now);
      assert row == [row[0]];
    }
    CoachDataService.ApplyAdviceSavesAppend(old(store.advice), items.adviceSaves, row, now);
    aborted := false;
  }

  /** One turn of the category loop: a throwing category ends the loop,
      keeping the saves made before the throw; any other appends its saves. */
  lemma CategoriesTurn(testId: string, url: Json, folder: string, cats: seq<(string, Json)>, i: nat)
    requires i < |cats| && !CategoriesEffects(testId, url, folder, cats[..i]).aborted
    ensures var e := CategoriesEffects(testId, url, folder, cats[..i]);
      var c := CategoryEffects(testId, url, folder, cats[i]);
      && (c.aborted ==>
            && CategoriesEffects(testId, url, folder, cats).aborted
            && CategoriesEffects(testId, url, folder, cats).adviceSaves == e.adviceSaves + c.adviceSaves)
      && (!c.aborted ==>
            && !CategoriesEffects(testId, url, folder, cats[..i + 1]).aborted
            && CategoriesEffects(testId, url, folder, cats[..i + 1]).adviceSaves == e.adviceSaves + c.adviceSaves)
  {
    var f := CategoryBody(testId, url, folder);
    FoldStep(f, cats, i);
    if CategoryEffects(testId, url, folder, cats[i]).aborted {
      FoldAbortSticks(f, cats, i + 1);
    }
  }

  /** The category loop of a truthy advice root. */
  method ProcessCategories(store: CoachDataService.CoachStore, testId: string, url: Json, folder: string,
                           categories: seq<(string, Json)>, now: nat) returns (aborted: bool)
    modifies store
    ensures aborted == CategoriesEffects(testId, url, folder, categories).aborted
    ensures store.advice == CoachDataService.ApplyAdviceSaves(old(store.advice),
      CategoriesEffects(testId, url, folder, categories).adviceSaves, now)
    ensures store.scores == old(store.scores) && store.testRuns == old(store.testRuns)
  {
    var i := 0;
    while i < |categories|
      invariant 0 <= i <= |categories|
      invariant !CategoriesEffects(testId, url, folder, categories[..i]).aborted
      invariant store.advice == CoachDataService.ApplyAdviceSaves(old(store.advice),
        CategoriesEffects(testId, url, folder, categories[..i]).adviceSaves, now)
      invariant store.scores == old(store.scores) && store.testRuns == old(store.testRuns)
    {
      var categoryName := categories[i].0;
      var category := categories[i].1;
      CategoriesTurn(testId, url, folder, categories, i);
      ghost var before := CategoriesEffects(testId, url, folder, categories[..i]).adviceSaves;
      aborted := ProcessCategory(store, testId, url, folder, categoryName, category, now);
      CoachDataService.ApplyAdviceSavesAppend(old(store.advice), before,
        CategoryEffects(testId, url, folder, categories[i]).adviceSaves, now);
      if aborted {
        return;
      }
      i := i + 1;
    }
    assert categories[..i] == categories;
    aborted := false;
  }

  /** The advice section of one page for a non-null document. */
  method ProcessCoach(store: CoachDataService.CoachStore, testId: string, folder: string, doc: Json, now: nat)
    returns (aborted: bool)
    requires doc != JNull
    modifies store
    ensures aborted == CoachEffects(testId, folder, Parsed(doc)).aborted
    ensures store.advice == CoachDataService.ApplyAdviceSaves(old(store.advice), CoachEffects(testId, folder, Parsed(doc)).adviceSaves, now)
    ensures store.scores == CoachDataService.ApplyScoreSaves(old(store.scores), CoachEffects(testId, folder, Parsed(doc)).scoreSaves, now)
    ensures store.testRuns == old(store.testRuns)
  {
    var adviceRoot := Prop(doc, "advice");
    var url := CoachUrl(doc);
    if !Truthy(adviceRoot) {
      return false;
    }
    var categoryScores := CategoryScores(adviceRoot.value);
    ghost var e := CategoriesEffects(testId, url, folder, Entries(adviceRoot.value));
    aborted := ProcessCategories(store, testId, url, folder, Entries(adviceRoot.value), now);
    if aborted {
      return;
    }
    ghost var s0 := store.scores;
    store.SaveCoachScores(JStr(testId), categoryScores, now);
    ScoreSavesOne(s0, (JStr(testId), categoryScores), now);
    assert e.adviceSaves + [] == e.adviceSaves;
    assert e.scoreSaves + [(JStr(testId), categoryScores)] == [(JStr(testId), categoryScores)];
  }

  /** The body of the content-type loop for a non-null entry. */
  method SaveType(store: PagexrayDataService.PagexrayStore, testId: string, browser: string, folder: string,
                  url: Json, contentType: string, data: Json, now: nat)
    modifies store
    ensures store.rows == PagexrayDataService.ApplyPagexraySaves(old(store.rows),
      [TypeSave(testId, browser, folder, url, contentType, data)], now)
  {
    var requests := Prop(data, "requests");
    var transferSize := Coalesce(OptProp(Prop(data, "transferSize"), "median"), Prop(data, "transferSize"));
    var contentSize := Coalesce(OptProp(Prop(data, "contentSize"), "median"), Prop(data, "contentSize"));
    store.SavePageXrayData(JStr(testId), url, JStr(folder), JStr(browser), JStr(contentType),
                           requests, contentSize, transferSize, now);
    PagexraySavesOne(old(store.rows), TypeSave(testId, browser, folder, url, contentType, data), now);
  }

  /** One turn of the content-type loop: a null entry throws and ends the
      loop, any other entry adds its save. */
  lemma TypesTurn(testId: string, browser: string, folder: string, url: Json, cts: seq<(string, Json)>, i: nat)
    requires i < |cts| && !TypesEffects(testId, browser, folder, url, cts[..i]).aborted
    ensures var e := TypesEffects(testId, browser, folder, url, cts[..i]);
      && (cts[i].1 == JNull ==>
            (&& TypesEffects(testId, browser, folder, url, cts).aborted
             && TypesEffects(testId, browser, folder, url, cts).pagexraySaves == e.pagexraySaves))
      && (cts[i].1 != JNull ==>
            (&& !TypesEffects(testId, browser, folder, url, cts[..i + 1]).aborted
             && TypesEffects(testId, browser, folder, url, cts[..i + 1]).pagexraySaves ==
                e.pagexraySaves + [TypeSave(testId, browser, folder, url, cts[i].0, cts[i].1)]))
  {
    var f := TypeBody(testId, browser, folder, url);
    FoldStep(f, cts, i);
    if cts[i].1 == JNull {
      FoldAbortSticks(f, cts, i + 1);
      assert Fold(f, cts[..i]).pagexraySaves + [] == Fold(f, cts[..i]).pagexraySaves;
    }
  }

  /** The content-type loop of a truthy `contentTypes`. */
  method ProcessTypes(store: PagexrayDataService.PagexrayStore, testId: string, browser: string, folder: string,
                      url: Json, cts: seq<(string, Json)>, now: nat) returns (aborted: bool)
    modifies store
    ensures aborted == TypesEffects(testId, browser, folder, url, cts).aborted
    ensures store.rows == PagexrayDataService.ApplyPagexraySaves(old(store.rows),
      TypesEffects(testId, browser, folder, url, cts).pagexraySaves, now)
  {
    var i := 0;
    while i < |cts|
      invariant 0 <= i <= |cts|
      invariant !TypesEffects(testId, browser, folder, url, cts[..i]).aborted
      invariant store.rows == PagexrayDataService.ApplyPagexraySaves(old(store.rows),
        TypesEffects(testId, browser, folder, url, cts[..i]).pagexraySaves, now)
    {
      var contentType := cts[i].0;
      var data := cts[i].1;
      TypesTurn(testId, browser, folder, url, cts, i);
      if data == JNull {
        return true;
      }
      ghost var before := TypesEffects(testId, browser, folder, url, cts[..i]).pagexraySaves;
      SaveType(store, testId, browser, folder, url, contentType, data, now);
      PagexrayDataService.ApplyPagexraySavesAppend(old(store.rows), before,
        [TypeSave(testId, browser, folder, url, contentType, data)], now);
      i := i + 1;
    }
    assert cts[..i] == cts;
    aborted := false;
  }

  /** The content-breakdown section of one page for a non-null document. */
  method ProcessPagexray(store: PagexrayDataService.PagexrayStore, testId: string, browser: string, folder: string,
                         doc: Json, now: nat) returns (aborted: bool)
    requires doc != JNull
    modifies store
    ensures aborted == PagexrayEffects(testId, browser, folder, Parsed(doc)).aborted
    ensures store.rows == PagexrayDataService.ApplyPagexraySaves(old(store.rows),
      PagexrayEffects(testId, browser, folder, Parsed(doc)).pagexraySaves, now)
  {
    var url := PagexrayUrl(doc);
    var contentTypes := Prop(doc, "contentTypes");
    if !Truthy(contentTypes) {
      return false;
    }
    aborted := ProcessTypes(store, testId, browser, folder, url, Entries(contentTypes.value), now);
  }

  /** `if (fs.existsSync(browsertimePath))`: parse, then the timing section. */
  method BrowsertimeSection(writeApi: WriteApi, testId: string, browser: string, folder: string, a: Artifact)
    returns (aborted: bool)
    modifies writeApi
    ensures aborted == BrowsertimeEffects(testId, browser, folder, a).aborted
    ensures writeApi.points == old(writeApi.points) + BrowsertimeEffects(testId, browser, folder, a).points
    ensures writeApi.defaultTags == old(writeApi.defaultTags)
  {
    match a
    case Absent =>
      aborted := false;
    case Malformed =>
      aborted := true;
    case Parsed(bt) =>
      if bt == JNull {
        return true;
      }
      ProcessBrowsertime(writeApi, testId, browser, folder, bt);
      aborted := false;
  }

  /** `if (fs.existsSync(coachPath))`: parse, then the advice section. */
  method CoachSection(store: CoachDataService.CoachStore, testId: string, folder: string, a: Artifact, now: nat)
    returns (aborted: bool)
    modifies store
    ensures aborted == CoachEffects(testId, folder, a).aborted
    ensures store.advice == CoachDataService.ApplyAdviceSaves(old(store.advice), CoachEffects(testId, folder, a).adviceSaves, now)
    ensures store.scores == CoachDataService.ApplyScoreSaves(old(store.scores), CoachEffects(testId, folder, a).scoreSaves, now)
    ensures store.testRuns == old(store.testRuns)
  {
    match a
    case Absent =>
      aborted := false;
    case Malformed =>
      aborted := true;
    case Parsed(doc) =>
      if doc == JNull {
        return true;
      }
      aborted := ProcessCoach(store, testId, folder, doc, now);
  }

  /** `if (fs.existsSync(pagexrayPath))`: parse, then the content-breakdown
      section. */
  method PagexraySection(store: PagexrayDataService.PagexrayStore, testId: string, browser: string, folder: string,
                         a: Artifact, now: nat) returns (aborted: bool)
    modifies store
    ensures aborted == PagexrayEffects(testId, browser, folder, a).aborted
    ensures store.rows == PagexrayDataService.ApplyPagexraySaves(old(store.rows),
      PagexrayEffects(testId, browser, folder, a).pagexraySaves, now)
  {
    match a
    case Absent =>
      aborted := false;
    case Malformed =>
      aborted := true;
    case Parsed(doc) =>
      if doc == JNull {
        return true;
      }
      aborted := ProcessPagexray(store, testId, browser, folder, doc, now);
  }

  /** One page folder. */
  method ProcessPage(writeApi: WriteApi, coach: CoachDataService.CoachStore, pagexray: PagexrayDataService.PagexrayStore,
                     testId: string, browser: string, page: Page, now: nat) returns (aborted: bool)
    modifies writeApi, coach, pagexray
    ensures aborted == PageEffects(testId, browser, page).aborted
    ensures writeApi.points == old(writeApi.points) + PageEffects(testId, browser, page).points
    ensures coach.advice == CoachDataService.ApplyAdviceSaves(old(coach.advice), PageEffects(testId, browser, page).adviceSaves, now)
    ensures coach.scores == CoachDataService.ApplyScoreSaves(old(coach.scores), PageEffects(testId, browser, page).scoreSaves, now)
    ensures pagexray.rows == PagexrayDataService.ApplyPagexraySaves(old(pagexray.rows), PageEffects(testId, browser, page).pagexraySaves, now)
    ensures writeApi.defaultTags == old(writeApi.defaultTags) && coach.testRuns == old(coach.testRuns)
  {
    if page.data.None? {
      return false;
    }
    var d := page.data.value;
    ghost var bt := BrowsertimeEffects(testId, browser, page.folder, d.browsertime);
    ghost var co := CoachEffects(testId, page.folder, d.coach);
    ghost var pxe := PagexrayEffects(testId, browser, page.folder, d.pagexray);
    PageComposition(bt, co, pxe);
    aborted := BrowsertimeSection(writeApi, testId, browser, page.folder, d.browsertime);
    if aborted {
      return;
    }
    aborted := CoachSection(coach, testId, page.folder, d.coach, now);
    if aborted {
      return;
    }
    aborted := PagexraySection(pagexray, testId, browser, page.folder, d.pagexray, now);
  }

  /** `processAndStoreDetailedResults(testRunId, browser, url)`: a fresh
      write buffer tagged with the test id and browser, the test-run upsert
      first, then every page in order until one throws. */
  method ProcessAndStoreDetailedResults(coach: CoachDataService.CoachStore, pagexray: PagexrayDataService.PagexrayStore,
                                        testRunId: string, browser: string, url: string, pages: Option<seq<Page>>, now: nat)
    returns (writeApi: WriteApi)
    modifies coach, pagexray
    ensures fresh(writeApi)
    ensures writeApi.defaultTags == map["test_id" := JStr(testRunId), "browser" := JStr(browser)]
    ensures coach.testRuns == CoachDataService.UpsertTestRun(old(coach.testRuns), JStr(testRunId), JStr(browser), now)
    ensures var e := if pages.Some? then RunEffects(testRunId, browser, pages.value) else NoEffects;
      && writeApi.points == e.points
      && coach.advice == CoachDataService.ApplyAdviceSaves(old(coach.advice), e.adviceSaves, now)
      && coach.scores == CoachDataService.ApplyScoreSaves(old(coach.scores), e.scoreSaves, now)
      && pagexray.rows == PagexrayDataService.ApplyPagexraySaves(old(pagexray.rows), e.pagexraySaves, now)
    ensures Tables(coach.advice, coach.testRuns, coach.scores, pagexray.rows) ==
      StoredAfterRun(Tables(old(coach.advice), old(coach.testRuns), old(coach.scores), old(pagexray.rows)),
                     testRunId, browser, pages, now)
  {
    var tags := map["test_id" := JStr(testRunId), "browser" := JStr(browser)];
    writeApi := new WriteApi();
    writeApi.UseDefaultTags(tags);
    writeApi.UseDefaultTags(tags);
    coach.SaveTestRun(JStr(testRunId), JStr(browser), now);
    if pages.None? {
      return;
    }
    var pageFolders := pages.value;
    ghost var f := PageBody(testRunId, browser);
    var i := 0;
    while i < |pageFolders|
      invariant 0 <= i <= |pageFolders|
      invariant fresh(writeApi)
      invariant writeApi.defaultTags == tags
      invariant coach.testRuns == CoachDataService.UpsertTestRun(old(coach.testRuns), JStr(testRunId), JStr(browser), now)
      invariant !Fold(f, pageFolders[..i]).aborted
      invariant writeApi.points == Fold(f, pageFolders[..i]).points
      invariant coach.advice == CoachDataService.ApplyAdviceSaves(old(coach.advice), Fold(f, pageFolders[..i]).adviceSaves, now)
      invariant coach.scores == CoachDataService.ApplyScoreSaves(old(coach.scores), Fold(f, pageFolders[..i]).scoreSaves, now)
      invariant pagexray.rows == PagexrayDataService.ApplyPagexraySaves(old(pagexray.rows), Fold(f, pageFolders[..i]).pagexraySaves, now)
    {
      FoldStep(f, pageFolders, i);
      ghost var e := Fold(f, pageFolders[..i]);
      ghost var pe := PageEffects(testRunId, browser, pageFolders[i]);
      assert f(pageFolders[i]) == pe;
      var aborted := ProcessPage(writeApi, coach, pagexray, testRunId, browser, pageFolders[i], now);
      CoachDataService.ApplyAdviceSavesAppend(old(coach.advice), e.adviceSaves, pe.adviceSaves, now);
      CoachDataService.ApplyScoreSavesAppend(old(coach.scores), e.scoreSaves, pe.scoreSaves, now);
      PagexrayDataService.ApplyPagexraySavesAppend(old(pagexray.rows), e.pagexraySaves, pe.pagexraySaves, now);
      if aborted {
        FoldAbortSticks(f, pageFolders, i + 1);
        return;
      }
      i := i + 1;
    }
    assert pageFolders[..i] == pageFolders;
  }
}
