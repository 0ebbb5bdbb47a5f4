# Browser-test results pipeline, modelled in Dafny

This project models the core of a service that runs browser performance tests
and turns their artifacts into flat records. It has four parts:

- **Artifact extraction** (`ResultsProcessor`). A test run has a folder per
  page. Each folder may hold three JSON documents: the timing document, the
  advice ("coach") document and the content-breakdown ("pagexray") document.
  The walk over the folders does three things. It appends time-series points
  to a write buffer: visual metrics, eight secondary timings and one media
  point per page. It upserts advice rows and category scores into the
  relational store. It upserts one row per content type. A throw anywhere in
  the walk ends it, and what was written before stays written.
- **Relational upserts and read-back** (`CoachDataService`,
  `PagexrayDataService`). Each table is a map from its unique key to its other
  columns. Every `INSERT ... ON DUPLICATE KEY UPDATE` is an insert-or-overwrite
  of the columns it lists. The reads reshape rows into the flat records the
  report page consumes. Advice rows get renamed columns. A content-breakdown
  row becomes three records, one per measured field.
- **Flat-record consumers.** `CoachDataTransformer` files advice into three
  fixed categories through a closed id-to-category table.
  `PerformanceTransformer` selects eleven named metrics. `DetailedReport`
  covers the report page's logic:
  - the statistic-priority lookup;
  - grouping of records by normalised URL;
  - the performance, advice, content-breakdown and media extractions.
- **Helpers.** `Js` models JSON values and the JavaScript coercions the code
  relies on: truthiness, `||`, `??`, optional reads, `for...in`,
  `Number`/`isNaN` (decimal text only), `parseInt` on numbers and strings,
  and `toLowerCase`. `TimeSeries` models points
  and the append-only write buffer.

The effects of the walk are described twice:
- as values: `Effects`, with `Fold` for a loop that stops at a throw;
- by imperative methods over `WriteApi`, `CoachStore` and `PagexrayStore`,
  whose contracts tie the new state to those values.

Upsert timestamps are the parameter `now`. The filesystem is replaced by its
outcome: a document is absent, malformed (disk read or `JSON.parse` failed) or
parsed.

## Model

| member | source | states |
|---|---|---|
| Js.Or | src/services/resultsProcessor.js:58 | `a \|\| b` is `a` when `a` is truthy and `b` otherwise |
| Js.Coalesce | src/services/resultsProcessor.js:219-220 | `a ?? b` is `b` exactly when `a` is null or undefined |
| Js.ParseInt | public/js/detailed-report.js:341-343 | a number parses to its truncation toward zero; undefined, null, booleans and objects give NaN |
| Js.ParseIntString | public/js/detailed-report.js:341-343 | text that is empty or all white space gives NaN |
| Js.ParseIntReadsDigits | public/js/detailed-report.js:341-343 | a nonempty run of decimal digits reads as its value in either radix mode |
| Js.ParseIntReadsNegatedDigits | public/js/detailed-report.js:341-343 | a minus sign followed by a nonempty run of decimal digits reads as the negated value |
| Js.ToNumber | src/services/resultsProcessor.js:71 | a number is itself, an object NaN, `[]` 0, an array of two or more elements NaN, and a one-element array converts as its element does (NaN for a boolean) |
| Js.OrZero | public/js/coachDataTransformer.js:83 | `parseInt(...) \|\| 0` turns NaN into 0 and keeps an integer |
| Js.ToLower | public/js/detailed-report.js:294 | lowercasing keeps the length and lowers exactly the ASCII capitals |
| Js.Entries | src/services/resultsProcessor.js:62 | `for...in` visits an object's members in order, one entry per array item or string character, and nothing for other values |
| Js.NatToStringInjective | src/services/resultsProcessor.js:150 | distinct array indices give distinct `for...in` keys |
| TimeSeries.WriteApi.UseDefaultTags | src/services/resultsProcessor.js:18-20 | the default tags are replaced and no point changes |
| TimeSeries.WriteApi.WritePoint | src/services/resultsProcessor.js:83 | exactly the given point is appended and nothing written earlier changes |
| ResultsProcessor.FoldAbortSticks | src/services/resultsProcessor.js:247-252 | once a loop body throws, the rest of the loop does nothing |
| ResultsProcessor.FoldAborts | src/services/resultsProcessor.js:147-196 | a loop throws exactly when one of its bodies throws |
| ResultsProcessor.FoldAdviceSaves | src/services/resultsProcessor.js:147-196 | every save of a loop belongs to one of its bodies, and a loop that runs to its end makes every body's saves |
| ResultsProcessor.BrowsertimeUrl | src/services/resultsProcessor.js:58 | the URL is the first truthy value of `pageinfo.url`, `info.url` and `url`, else `'unknown_url'` |
| ResultsProcessor.VisualMetricContribution | src/services/resultsProcessor.js:61-74 | an object entry contributes its writable `median`, a number contributes itself, and anything else contributes no point |
| ResultsProcessor.MetricPointsExactly | src/services/resultsProcessor.js:72-74 | a point is written for a candidate exactly when its value is neither undefined nor null nor NaN, and the point carries that value |
| ResultsProcessor.MetricPointsShape | src/services/resultsProcessor.js:77-82 | every metric point is a `visualMetrics` point with the tags `test_id`, `url`, `browser` and `metricName` and one float field `value` that is neither null nor NaN |
| ResultsProcessor.AdditionalMetricsNames | src/services/resultsProcessor.js:93-102 | the eight secondary metrics have these names in this order, and each is one of the eleven names the performance transformer selects |
| ResultsProcessor.AdditionalMetricsAbsent | src/services/resultsProcessor.js:94-101 | without `timings` or without `googleWebVitals`, the metrics read from that object are skipped, not written as 0 |
| ResultsProcessor.BrowsertimePointsShape | src/services/resultsProcessor.js:61-129 | a timing document gives metric points followed by exactly one media point, the last, whatever its metrics hold |
| ResultsProcessor.DuplicateNamesPossible | src/services/resultsProcessor.js:61-114 | a name written by both metric loops yields two points, the visual one first |
| ResultsProcessor.ItemSaves | src/services/resultsProcessor.js:152-156 | an advice item is saved at most once, and exactly when its score is defined |
| ResultsProcessor.ItemSaveFields | src/services/resultsProcessor.js:156-168 | the save carries the run's test, the document's URL, the page folder, the category and the item's id and score; the title falls back to the id and the description to `''` |
| ResultsProcessor.CategoryRow | src/services/resultsProcessor.js:179-191 | a category with a defined score gets one pseudo-row whose advice id and title are the category name and whose description is `''` |
| ResultsProcessor.CategoryScores | src/services/resultsProcessor.js:141-145 | the three category scores are the `score` of the named categories of the advice root, not the item scores |
| ResultsProcessor.CoachEffects | src/services/resultsProcessor.js:135-205 | the advice section writes no points and no content-breakdown rows |
| ResultsProcessor.SizeOf | src/services/resultsProcessor.js:219-220 | a size is the field's `median` when that is neither null nor undefined, and the raw field otherwise |
| ResultsProcessor.ItemsSaves | src/services/resultsProcessor.js:150-173 | over items none of which is null the loop runs to its end, and a save is made exactly when one item makes it |
| ResultsProcessor.CategorySaves | src/services/resultsProcessor.js:147-195 | a category without null items saves its items with a defined score, then its own pseudo-row, and nothing else |
| ResultsProcessor.CategoriesSaves | src/services/resultsProcessor.js:147-196 | on an advice root without null categories or items the loop runs to its end, and a save is made exactly when one category makes it |
| ResultsProcessor.CategoriesSavesOwned | src/services/resultsProcessor.js:159-191 | every advice save of the category loop carries the run's test id, the page folder and the document's URL |
| ResultsProcessor.TypesSaves | src/services/resultsProcessor.js:216-237 | a content-breakdown document without null entries gives exactly one save per content type, in document order |
| ResultsProcessor.PagexrayEffects | src/services/resultsProcessor.js:209-239 | the content-breakdown section only saves content-breakdown rows |
| ResultsProcessor.PageComposition | src/services/resultsProcessor.js:45-243 | each kind of effect of a page comes from the one section that makes it, and a throw stops the later sections |
| ResultsProcessor.PagePoints | src/services/resultsProcessor.js:45-130 | the points of a page are those of its timing document, and none without a data directory |
| ResultsProcessor.RunPointsShape | src/services/resultsProcessor.js:43-244 | every point of a run is a well-formed metric point or a media point of the run |
| ResultsProcessor.RunStopsAtFirstThrow | src/services/resultsProcessor.js:247-252 | a throw on one page ends the run, and later pages have no effect |
| ResultsProcessor.RerunIsIdempotent | src/services/resultsProcessor.js:15-253 | storing the same run's results twice leaves the advice, test-run, score and content-breakdown tables as storing them once at the later time |
| ResultsProcessor.WriteVisualMetrics | src/services/resultsProcessor.js:61-86 | the loop appends exactly the metric points of the visual-metric entries, in order |
| ResultsProcessor.WriteAdditionalMetrics | src/services/resultsProcessor.js:104-114 | the loop appends exactly the metric points of the eight secondary metrics, in order |
| ResultsProcessor.ProcessBrowsertime | src/services/resultsProcessor.js:56-129 | the timing section appends exactly the page's timing points |
| ResultsProcessor.ProcessItems | src/services/resultsProcessor.js:150-173 | the advice-list loop throws exactly when the model says, and applies exactly the modelled saves to the advice table |
| ResultsProcessor.ProcessCategory | src/services/resultsProcessor.js:147-195 | one category applies its items' saves and then its pseudo-row |
| ResultsProcessor.ProcessCategories | src/services/resultsProcessor.js:147-196 | the category loop applies the categories' saves in order, up to the first throw |
| ResultsProcessor.ProcessCoach | src/services/resultsProcessor.js:135-205 | the advice section updates the advice and scores tables with exactly the modelled saves and leaves the test runs alone |
| ResultsProcessor.ProcessTypes | src/services/resultsProcessor.js:215-238 | the content-type loop applies exactly the modelled saves, up to the first throw |
| ResultsProcessor.ProcessPagexray | src/services/resultsProcessor.js:211-238 | the content-breakdown section applies exactly the modelled saves |
| ResultsProcessor.ProcessPage | src/services/resultsProcessor.js:45-243 | one page changes the buffer and the three tables exactly as its modelled effects say |
| ResultsProcessor.ProcessAndStoreDetailedResults | src/services/resultsProcessor.js:15-253 | a fresh buffer tagged with test id and browser; the test-run upsert; then the pages' effects in order until the first throw; the four stored tables end as `StoredAfterRun` of the old ones |
| CoachDataService.UpsertAdvice | src/services/coachDataService.js:18-27 | the key gets score, title, description and the timestamp; a new key also gets its URL; an existing key keeps its URL; other keys are untouched |
| CoachDataService.SaveTwiceIsSaveOnce | src/services/coachDataService.js:19-26 | saving the same arguments twice leaves what saving them once leaves, up to the timestamp |
| CoachDataService.ApplyAdviceSavesAt | src/services/coachDataService.js:19-27 | after a sequence of saves, a key holds the last save's score, title and description and the first save's URL unless it was already stored |
| CoachDataService.ReplayIsIdempotent | src/services/coachDataService.js:19-26 | replaying a sequence of saves changes nothing but the timestamps |
| CoachDataService.UpsertTestRun | src/services/coachDataService.js:117-124 | the run is inserted or gets its new browser and timestamp; other runs are untouched |
| CoachDataService.TestRunReplayIsIdempotent | src/services/coachDataService.js:117-124 | upserting the same run twice leaves the table as upserting it once at the later time |
| CoachDataService.ApplyScoreSavesAt | src/services/coachDataService.js:188-197 | after a sequence of score saves, a run holds the last save's three scores (null for a falsy score) and the new timestamp; other runs keep their rows |
| CoachDataService.ScoreReplayIsIdempotent | src/services/coachDataService.js:188-197 | replaying a sequence of score saves leaves the table as applying it once at the later time |
| PagexrayDataService.ApplyPagexraySavesAt | src/services/pagexrayDataService.js:18-27 | after a sequence of saves, a key holds the last save's three counts (0 for a falsy count), the first save's URL and browser unless it was already stored, and the new timestamp; other keys keep their rows |
| PagexrayDataService.ReplayIsIdempotent | src/services/pagexrayDataService.js:18-27 | replaying a sequence of content-breakdown saves leaves the table as applying it once at the later time |
| CoachDataService.StoredScore | src/services/coachDataService.js:197 | a falsy score, 0 and undefined included, is stored as NULL |
| CoachDataService.UpsertScores | src/services/coachDataService.js:188-197 | all three scores of the run are overwritten, each falsy one by NULL; other runs are untouched |
| CoachDataService.ScoresRoundTrip | src/services/coachDataService.js:197 | a saved score reads back as itself when truthy and as `'N/A'` otherwise |
| CoachDataService.CoachRecord | src/services/coachDataService.js:67-77 | an advice row becomes a record with exactly the nine renamed keys |
| CoachDataService.CoachRecordRoundTrip | src/services/coachDataService.js:67-77 | the renaming loses nothing: the row is recovered from its record |
| CoachDataService.CoachRecords | src/services/coachDataService.js:67-77 | one record per row, in row order |
| CoachDataService.CoachRecordsInvert | src/services/coachDataService.js:67-77 | every record recovers its row, and distinct rows give distinct records |
| CoachDataService.TestRunRecord | src/services/coachDataService.js:165-169 | a test-run row reads back with its id, browser and timestamp |
| CoachDataService.ShapeTestRun | src/services/coachDataService.js:172 | the first row when there is one, else null |
| CoachDataService.ShapeCoachScores | src/services/coachDataService.js:228-240 | with no row every score is `'N/A'`; otherwise each falsy stored score becomes `'N/A'` |
| CoachDataService.CoachStore.SaveCoachData | src/services/coachDataService.js:14-35 | the advice table becomes the upsert of the arguments; the other tables are unchanged |
| CoachDataService.CoachStore.SaveTestRun | src/services/coachDataService.js:113-131 | the test-run table becomes the upsert of the run; the other tables are unchanged |
| CoachDataService.CoachStore.SaveCoachScores | src/services/coachDataService.js:184-205 | the scores table becomes the upsert of the three scores; the other tables are unchanged |
| CoachDataService.CoachStore.SelectAdviceByTestId | src/services/coachDataService.js:47-62 | every stored row of the test exactly once, each as stored, newest first |
| CoachDataService.SelectTurn | src/services/coachDataService.js:60 | taking a newest remaining row next keeps the selection complete-so-far, duplicate-free and newest first |
| CoachDataService.CoachStore.GetCoachDataByTestId | src/services/coachDataService.js:43-84 | one renamed record per stored row of the test, no record twice, newest first, each recovering its stored row |
| CoachDataService.CoachStore.GetTestRunById | src/services/coachDataService.js:160-177 | the run's record when the run is stored, else null |
| CoachDataService.CoachStore.GetCoachScores | src/services/coachDataService.js:212-245 | `'N/A'` for all three without a row; otherwise the stored scores, each either truthy or `'N/A'` |
| PagexrayDataService.Counter | src/services/pagexrayDataService.js:27 | a falsy counter is stored as 0, any other as it is |
| PagexrayDataService.UpsertPagexray | src/services/pagexrayDataService.js:18-27 | the key gets the three counters (0 when falsy) and the timestamp; an existing key keeps its URL and browser; other keys are untouched |
| PagexrayDataService.SaveTwiceIsSaveOnce | src/services/pagexrayDataService.js:19-26 | upserting the same row twice leaves what upserting it once leaves, up to the timestamp |
| PagexrayDataService.FieldRecord | src/services/pagexrayDataService.js:73-108 | each record built from a row has exactly the nine record keys |
| PagexrayDataService.RowRecords | src/services/pagexrayDataService.js:71-110 | a row gives three records, for `requests`, `contentSize` and `transferSize` in that order |
| PagexrayDataService.Expand | src/services/pagexrayDataService.js:69-110 | n rows give exactly 3n records |
| PagexrayDataService.ExpandAt | src/services/pagexrayDataService.js:71-110 | record 3i+j is field j of row i: the records come in row order |
| PagexrayDataService.FieldRecordsShare | src/services/pagexrayDataService.js:73-108 | the three records of a row differ only in `_field` and `_value`, all have `_measurement = 'pagexray'`, and each value is its column |
| PagexrayDataService.RegroupExpand | src/services/pagexrayDataService.js:71-110 | the expansion loses nothing: the rows are recovered from the records |
| PagexrayDataService.PagexrayStore.SavePageXrayData | src/services/pagexrayDataService.js:14-35 | the table becomes the upsert of the arguments |
| PagexrayDataService.PagexrayStore.SelectByTestId | src/services/pagexrayDataService.js:47-62 | every stored row of the test exactly once, each as stored |
| PagexrayDataService.PagexrayStore.GetPageXrayDataByTestId | src/services/pagexrayDataService.js:43-117 | the expansion of exactly the test's stored rows, each once |
| PagexrayDataService.ExpandRows | src/services/pagexrayDataService.js:69-112 | the push loop builds exactly the expansion of the rows |
| CoachDataTransformer.GetCategoryForAdviceId | public/js/coachDataTransformer.js:38-45 | a found category lists the id; null means no category lists it |
| CoachDataTransformer.CategoriesDisjoint | public/js/coachDataTransformer.js:7-31 | no advice id is listed under two categories |
| CoachDataTransformer.GetCategoryUnique | public/js/coachDataTransformer.js:7-45 | the lookup returns a category exactly when that category lists the id |
| CoachDataTransformer.CategoryNamesUnclassified | public/js/coachDataTransformer.js:7-31 | the category names are listed under no category |
| CoachDataTransformer.EmptyInputShape | public/js/coachDataTransformer.js:56-62 | an empty array gives each of the three categories score 0, an empty advice list and an empty full-mark list |
| CoachDataTransformer.AccumulatedIds | public/js/coachDataTransformer.js:67-78 | the accumulated ids are exactly the truthy advice ids of the records |
| CoachDataTransformer.RecordWithoutIdIgnored | public/js/coachDataTransformer.js:68-69 | a record without a truthy advice id has no effect, wherever it stands |
| CoachDataTransformer.AccumulatedEntry | public/js/coachDataTransformer.js:72-94 | each field of an entry is what the last record writing that field gave (a falsy title becomes the id, an unparsable score 0), or the default |
| CoachDataTransformer.AccumulatedCategoryScore | public/js/coachDataTransformer.js:97-106 | each category score is the last score written by a record whose id is the category name, else 0 |
| CoachDataTransformer.CategoryScoreOfOutput | public/js/coachDataTransformer.js:97-115 | the score of each output block is its category's accumulated score |
| CoachDataTransformer.ListedItems | public/js/coachDataTransformer.js:118-139 | an id is in a category's advice list exactly when some record carries it, it is not a category name, and the table files it under that category |
| CoachDataTransformer.ListedScore | public/js/coachDataTransformer.js:130-139 | the score of a listed item is the last score written for it |
| CoachDataTransformer.ListsAreClassified | public/js/coachDataTransformer.js:119-139 | every listed id belongs to its category and is not a category name |
| CoachDataTransformer.UpdateEntry | public/js/coachDataTransformer.js:81-94 | the entry gets the score, title and description the record writes, and keeps its other fields |
| CoachDataTransformer.TrackCategoryScore | public/js/coachDataTransformer.js:97-106 | each category score is updated exactly when the record writes one for it |
| CoachDataTransformer.AccumulateRecord | public/js/coachDataTransformer.js:67-107 | one pass of the first loop is one step of the accumulation |
| CoachDataTransformer.FillAdviceLists | public/js/coachDataTransformer.js:118-140 | the second loop files every accumulated id under its category, as the advice lists specify |
| CoachDataTransformer.TransformCoachData | public/js/coachDataTransformer.js:53-148 | the result is the modelled transformation of the records |
| CoachDataTransformer.TransformAsWritten | public/js/coachDataTransformer.js:54-62 | as written, the call throws exactly for null and undefined, and an array gives the modelled transformation of its records |
| CoachDataTransformer.NullInputThrows | public/js/coachDataTransformer.js:54 | null and undefined inputs throw before the array check |
| CoachDataTransformer.TransformInputCorrect | public/js/coachDataTransformer.js:56-62 | with the check first, every non-array and the empty array give the empty shape, agreeing with the code wherever that does not throw |
| PerformanceTransformer.MetricNamesDistinct | src/services/performanceTransformer.js:29-41 | the eleven metric names are distinct |
| PerformanceTransformer.TransformPerformanceRecords | src/services/performanceTransformer.js:25-63 | the keys are exactly the eleven names in order, and the result is the modelled selection |
| PerformanceTransformer.LastQualifyingRecordWins | src/services/performanceTransformer.js:51-60 | a name ends with the `_value` of the last qualifying record |
| PerformanceTransformer.NoQualifyingRecordIsNull | src/services/performanceTransformer.js:45-47 | a name without a qualifying record stays null |
| PerformanceTransformer.NonQualifyingRecordIgnored | src/services/performanceTransformer.js:51-60 | a record without a listed name and `_field === 'value'` has no effect, wherever it stands |
| PerformanceTransformer.IsValidMetricsObject | src/services/performanceTransformer.js:71-77 | false for null and non-objects; otherwise true exactly when some value is not null |
| PerformanceTransformer.GetMissingMetrics | src/services/performanceTransformer.js:86-90 | the result holds exactly the keys whose value is null |
| PerformanceTransformer.NullIndicesAreNull | src/services/performanceTransformer.js:86-90 | every position `NullIndices` lists is an entry whose value is null |
| PerformanceTransformer.NullIndicesIncreasing | src/services/performanceTransformer.js:86-90 | `NullIndices` lists positions strictly increasing, so each once |
| PerformanceTransformer.NullIndicesComplete | src/services/performanceTransformer.js:86-90 | every entry whose value is null is listed by `NullIndices` |
| PerformanceTransformer.MissingAreNullKeys | src/services/performanceTransformer.js:86-90 | the result is exactly the keys of the null entries, one per null entry, in entry order |
| PerformanceTransformer.MissingInKeyOrder | src/services/performanceTransformer.js:86-90 | the missing keys keep the object's key order |
| PerformanceTransformer.InvalidIffAllMissing | src/services/performanceTransformer.js:71-90 | an object is invalid exactly when every one of its keys is missing |
| PerformanceTransformer.MissingAfterTransform | src/services/performanceTransformer.js:45-47 | a metric without a qualifying record is reported missing |
| PerformanceTransformer.FormatMetricsForDisplay | src/services/performanceTransformer.js:99-122 | same keys in the same order; each known metric is shown by its display text, any other key passes through unchanged |
| PerformanceTransformer.DisplayValueCases | src/services/performanceTransformer.js:103-113 | a null known metric is shown as `'N/A'`, any other value as its text followed by `' ms'` |
| DetailedReport.Distinct | public/js/detailed-report.js:117 | `[...new Set(xs)]` holds the elements of `xs`, each once |
| DetailedReport.Normalize | public/js/detailed-report.js:104-107 | a falsy value is returned as is; a string stays a string; any other value throws |
| DetailedReport.NormalizeStripsOneSlash | public/js/detailed-report.js:104-107 | exactly one trailing `/` is removed |
| DetailedReport.NormalizeKeepsOthers | public/js/detailed-report.js:104-107 | a string without a trailing `/` is returned unchanged |
| DetailedReport.FindField | public/js/detailed-report.js:255-258 | the first record of the measurement and field, or none when there is none |
| DetailedReport.GetValuePriority | public/js/detailed-report.js:252-261 | the first field, in the order given / `mean` / `value` / `max`, that has a record decides, and its first record supplies `_value`; otherwise null |
| DetailedReport.GetValueSound | public/js/detailed-report.js:252-261 | the result is null or the `_value` of a record of the measurement |
| DetailedReport.GetValueMeanBeforeValue | public/js/detailed-report.js:252-255 | with the default field: when the measurement has no `median` record and has a `mean` record, the first `mean` record supplies the value, whatever `value` and `max` records there are |
| DetailedReport.ReportKeysAreServerMetricNames | public/js/detailed-report.js:281-285 | the page asks for exactly the eleven metrics the server transformer selects, in the same order |
| DetailedReport.MetricCellTiers | public/js/detailed-report.js:287-297 | an exact name match decides, then the lowercased name; a cell is `'N/A'` exactly when neither has a record |
| DetailedReport.LowercaseTierRedundant | public/js/detailed-report.js:293-295 | for an already lowercase key the second tier repeats the first |
| DetailedReport.ExtractPerformanceMetrics | public/js/detailed-report.js:278-300 | one cell per key, in key order, each the two-tier lookup |
| DetailedReport.AdviceRecords | public/js/detailed-report.js:304 | exactly the `coach_advice` records with a truthy advice id |
| DetailedReport.CoachAdviceIds | public/js/detailed-report.js:302-320 | there is an entry for an id exactly when some advice record carries it |
| DetailedReport.CoachAdviceDistinct | public/js/detailed-report.js:309-316 | no advice id has two entries |
| DetailedReport.CoachAdviceOrder | public/js/detailed-report.js:316 | one entry per distinct advice id, in the order `Distinct` gives the records' ids |
| DetailedReport.CoachAdviceDefaultScore | public/js/detailed-report.js:309-312 | an entry without a score record keeps score 0 |
| DetailedReport.LastSupplierWins | public/js/detailed-report.js:312-314 | a field holds the value of the last record that supplies it |
| DetailedReport.ExtractCoachAdvice | public/js/detailed-report.js:302-320 | the loop over the advice map yields exactly the modelled entries |
| DetailedReport.ContentTypes | public/js/detailed-report.js:328-329 | the content types are exactly the truthy `contentType` values of the content-breakdown records |
| DetailedReport.OfType | public/js/detailed-report.js:333 | exactly the records of the content type |
| DetailedReport.Plus | public/js/detailed-report.js:347-348 | a sum is an integer when both operands are, and NaN otherwise |
| DetailedReport.KeptTypesMember | public/js/detailed-report.js:331-351 | a type is listed exactly when it is present, has records and has requests or size above 0, with its summary |
| DetailedReport.KeptTypesDistinct | public/js/detailed-report.js:329-346 | no content type is listed twice |
| DetailedReport.PagexrayViewTypes | public/js/detailed-report.js:322-354 | the view lists exactly the kept content types; a type with neither requests nor size above 0 is dropped |
| DetailedReport.ExtractPageXrayData | public/js/detailed-report.js:322-354 | the loop yields the kept types in order and totals that are the sums over them |
| DetailedReport.ExtractMedia | public/js/detailed-report.js:356-364 | the `_value` of the first `video_path` and of the first `lcp_screenshot_path` record of `media_assets`, each null without one |
| DetailedReport.ExtractMediaIgnoresOthers | public/js/detailed-report.js:357-358 | records of other measurements or fields never change the media found |
| DetailedReport.NormalizedIds | public/js/detailed-report.js:109-115 | every record's normalised `url \|\| group`, or a throw when one normalisation throws |
| DetailedReport.GroupIndices | public/js/detailed-report.js:120 | the records of a group are exactly those whose normalised id is the key, in record order |
| DetailedReport.GroupsPartition | public/js/detailed-report.js:109-128 | a record with a truthy normalised id lands in exactly its own group, and one with a falsy id in none |
| DetailedReport.NormalizeAll | public/js/detailed-report.js:109-117 | the first loop yields the normalised ids and, without duplicates, every truthy one of them |
| DetailedReport.BuildPages | public/js/detailed-report.js:119-128 | one non-empty page per key, built from the key's records |
| DetailedReport.ProcessData | public/js/detailed-report.js:99-129 | a throw exactly when some id's normalisation throws; otherwise one page per distinct truthy normalised id, in order, from exactly that id's records |
| DetailedReport.LoneSlashHasNoPage | public/js/detailed-report.js:104-112 | a lone `/` normalises to the empty string, whose records belong to no page |
| DetailedReport.GroupNonEmpty | public/js/detailed-report.js:117-122 | every page id has at least one record |

## Findings

| source | as written | input that shows it | evidently intended | confidence | as-written member | corrected member |
|---|---|---|---|---|---|---|
| public/js/coachDataTransformer.js:54-56 | `records.length` is read for a log line before the `!Array.isArray(records)` check | `transformCoachData(null)` or `transformCoachData(undefined)` throws a TypeError | every value that is not an array gives the empty three-category shape, as the check on line 56 says | high, not executed | CoachDataTransformer.TransformAsWritten, CoachDataTransformer.NullInputThrows | CoachDataTransformer.TransformInput, CoachDataTransformer.TransformInputCorrect |

## Left out

- The filesystem (`existsSync`, `readdirSync`, `readFileSync`), `JSON.parse` and the debug log. Each is replaced by its outcome: a missing pages directory, a missing data directory, and an absent, malformed or parsed document.
- The time-series client. Points go to an append-only buffer. `writeApi.close()` and flushing are not modelled, and neither are the Flux queries of the test service.
- SQL plumbing: the pool, connections and SQL text. The unique keys come from a schema that is not part of this model. They are taken to be (test_id, group_name, category_name, advice_id) for advice, test_id for test runs and scores, and (test_id, group_name, content_type) for content breakdown.
- The try/catch around each upsert. Every upsert is modelled as succeeding, so the case where a failed save is logged and the loop goes on is not modelled.
- `CURRENT_TIMESTAMP`. It is the parameter `now`, one reading per walk.
- `getAllTestRuns`. It is a plain select with no logic beyond the SQL order.
- PagexrayDataService.PagexrayStore.SelectByTestId: the `ORDER BY content_type` of the select is not modelled, and rows come in an unspecified order.
- CoachDataService.CoachStore.SelectAdviceByTestId: rows with equal `created_at` come in an unspecified order, as the SQL leaves them.
- The JavaScript rule that `for...in` and `Object.entries` visit integer-like keys first. Objects keep their members in document order.
- The unused `url` parameter of `processAndStoreDetailedResults`. The model takes it and ignores it, as the code does.
- Number formatting (`toFixed`, `parseFloat`, `String(number)`). The performance table cell holds the raw `_value`. Number-to-text is the parameter `num` of the display formatter.
- PerformanceTransformer.FormatMetricsForDisplay: a key such as `constructor`, which the source finds on the formatter object's prototype, is treated as unknown.
- `extractSummary`'s `Date(...).toLocaleString()` timestamp and its constant score fields. Only the page id and browser are modelled.
- The report page's fetching, DOM, rendering, HTML escaping and charts, plus the HTTP routes, controllers, upload handling and test-id generation.
- CoachDataTransformer.TransformCoachData: array elements that are not objects (for example a null record, which throws at `record.adviceId`). It takes an array of records.
- Floating-point arithmetic. Numbers are exact reals, and `parseInt` of a number truncates it exactly.
- Js.StringToNumber: only blank text and signed decimal literals are numbers. JavaScript also reads exponent notation (`"1e3"`), `0x`/`0o`/`0b` prefixes and `"Infinity"`, and the model leaves these NaN. The numbers are exact reals with no infinity, so `Infinity` has no value to take.
- Js.ParseInt: an array argument gives NaN. JavaScript first joins the array into text (`parseInt(["12"], 10)` is 12), and that join needs the number-to-text conversion this model leaves out.
- CoachDataTransformer.TransformCoachData: `adviceMap` is keyed by the raw JSON id. JavaScript keys a plain object by `String(id)`, so the ids `1` and `"1"` share one entry there but get two in the model. Ids that name an inherited property of `Object.prototype` (`constructor`, `__proto__`, `toString`) are treated like any other id. In JavaScript they find the inherited value instead of a missing entry.
- CoachDataTransformer.CategoryBlock: `adviceList` is a map, so the object's key order, which follows the first appearance of each id, is not kept.
- DetailedReport.ExtractCoachAdvice: the advice map behind it is keyed by the raw JSON id, for the same reason and with the same consequences as in `TransformCoachData`. So `CoachAdviceIds` lists `1` and `"1"` separately, and lists ids such as `constructor` that JavaScript would drop.
- DetailedReport.ExtractPageXrayData: `contentTypes` is a list of (type, summary) pairs, one per distinct raw type value. In JavaScript the types are distinct as `Set` elements but are written as object properties keyed by `String(type)`. So a `1` and a `"1"` there leave one property, the later one, while both still count toward the totals. A type `__proto__` there replaces the object's prototype instead of adding a property.
