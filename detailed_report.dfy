/**
 * The report page's consumers of flat records: grouping the records of a
 * test by normalised page id, the statistic-priority lookup, the
 * performance, advice, content-breakdown and media extractions.
 * Rendering, fetching and the DOM are outside this model.
 */
module DetailedReport {
  import opened Js
  import PerformanceTransformer

  // ---------------------------------------------------------------------
  // Sequence helpers

  /** The distinct elements of `xs` in order of first occurrence: what
      `[...new Set(xs)]` yields. */
  function Distinct<T(==,!new)>(xs: seq<T>): (ds: seq<T>)
    ensures forall x :: x in ds <==> x in xs
    ensures forall i, j :: 0 <= i < j < |ds| ==> ds[i] != ds[j]
  {
    if |xs| == 0 then []
    else
      var d := Distinct(xs[..|xs| - 1]);
      assert xs == xs[..|xs| - 1] + [xs[|xs| - 1]];
      if xs[|xs| - 1] in d then d else d + [xs[|xs| - 1]]
  }

  lemma DistinctSnoc<T(!new)>(xs: seq<T>, x: T)
    ensures Distinct(xs + [x]) == if x in Distinct(xs) then Distinct(xs) else Distinct(xs) + [x]
  {
    assert (xs + [x])[..|xs + [x]| - 1] == xs;
  }

  /** The truthy values of `vs`, unwrapped: `.filter(Boolean)`. */
  function TruthyValues(vs: seq<Value>): (js: seq<Json>)
    ensures forall j :: j in js <==> exists i :: 0 <= i < |vs| && Truthy(vs[i]) && vs[i].value == j
  {
    if |vs| == 0 then []
    else
      var rest := TruthyValues(vs[..|vs| - 1]);
      assert forall i :: 0 <= i < |vs| - 1 ==> vs[..|vs| - 1][i] == vs[i];
      if Truthy(vs[|vs| - 1]) then rest + [vs[|vs| - 1].value] else rest
  }

  // ---------------------------------------------------------------------
  // normalize

  /** `normalize(str)`: a falsy value is returned as it is; a string loses
      one trailing '/'; any other value has no `endsWith` and throws a
      TypeError (`None`). */
  function Normalize(v: Value): (r: Option<Value>)
    ensures !Truthy(v) ==> r == Some(v)
    ensures Truthy(v) && v.value.JStr? ==> r.Some? && r.value.Some? && r.value.value.JStr?
    ensures Truthy(v) && !v.value.JStr? ==> r.None?
  {
    if !Truthy(v) then Some(v)
    else
      match v.value
      case JStr(s) => Some(Some(JStr(if s[|s| - 1] == '/' then s[..|s| - 1] else s)))
      case _ => None
  }

  /** Exactly one trailing '/' is removed ... */
  lemma NormalizeStripsOneSlash(s: string)
    ensures Normalize(Some(JStr(s + "/"))) == Some(Some(JStr(s)))
  {
    assert (s + "/")[..|s|] == s;
  }

  /** ... and a string without one is returned unchanged. */
  lemma NormalizeKeepsOthers(s: string)
    requires s == "" || s[|s| - 1] != '/'
    ensures Normalize(Some(JStr(s))) == Some(Some(JStr(s)))
  {
  }

  // ---------------------------------------------------------------------
  // find

  predicate HasMeasurementField(r: Record, measurement: string, field: string)
  {
    IsStr(Field(r, "_measurement"), measurement) && IsStr(Field(r, "_field"), field)
  }

  /** `records.find(r => r._measurement === measurement && r._field === field)`,
      as the index of the record found. */
  function FindField(rs: seq<Record>, measurement: string, field: string): (k: Option<nat>)
    ensures k.Some? ==> k.value < |rs| && HasMeasurementField(rs[k.value], measurement, field)
    ensures k.Some? ==> forall j :: 0 <= j < k.value ==> !HasMeasurementField(rs[j], measurement, field)
    ensures k.None? ==> forall j :: 0 <= j < |rs| ==> !HasMeasurementField(rs[j], measurement, field)
  {
    if |rs| == 0 then None
    else if HasMeasurementField(rs[0], measurement, field) then Some(0)
    else
      match FindField(rs[1..], measurement, field)
      case None => None
      case Some(k) => Some(k + 1)
  }

  /** `record ? record._value : null` for a found index. */
  function ValueAt(rs: seq<Record>, k: Option<nat>): Value
    requires k.Some? ==> k.value < |rs|
  {
    match k
    case None => Some(JNull)
    case Some(i) => Field(rs[i], "_value")
  }

  // ---------------------------------------------------------------------
  // getValue

  /** The fields `getValue` tries, in order. */
  function Priority(field: string): seq<string>
  {
    [field, "mean", "value", "max"]
  }

  /** `getValue(records, measurement, field = 'median')`. */
  function GetValue(rs: seq<Record>, measurement: string, field: string := "median"): Value
  {
    var k :=
      match FindField(rs, measurement, field)
      case Some(i) => Some(i)
      case None =>
        match FindField(rs, measurement, "mean")
        case Some(i) => Some(i)
        case None =>
          match FindField(rs, measurement, "value")
          case Some(i) => Some(i)
          case None => FindField(rs, measurement, "max");
    ValueAt(rs, k)
  }

  /** The first field in priority order that some record of the measurement
      carries decides, and the first such record supplies `_value`; with no
      such record the result is null. */
  lemma GetValuePriority(rs: seq<Record>, measurement: string, field: string, p: nat)
    requires p < 4
    requires forall q :: 0 <= q < p ==> FindField(rs, measurement, Priority(field)[q]).None?
    ensures FindField(rs, measurement, Priority(field)[p]).Some? ==>
      GetValue(rs, measurement, field) == Field(rs[FindField(rs, measurement, Priority(field)[p]).value], "_value")
    ensures p == 3 && FindField(rs, measurement, "max").None? ==> GetValue(rs, measurement, field) == Some(JNull)
  {
    var P := Priority(field);
    if p >= 1 { assert FindField(rs, measurement, P[0]).None?; }
    if p >= 2 { assert FindField(rs, measurement, P[1]).None?; }
    if p >= 3 { assert FindField(rs, measurement, P[2]).None?; }
  }

  /** The result is null or the `_value` of a record of the measurement. */
  lemma GetValueSound(rs: seq<Record>, measurement: string, field: string)
    ensures GetValue(rs, measurement, field) == Some(JNull) ||
      exists i :: 0 <= i < |rs| && IsStr(Field(rs[i], "_measurement"), measurement) &&
        GetValue(rs, measurement, field) == Field(rs[i], "_value")
  {
  }

  /** With the default field: when no record of the measurement has a
      `median`, its first `mean` record supplies the value, whatever `value`
      and `max` records it also has. */
  lemma GetValueMeanBeforeValue(rs: seq<Record>, measurement: string)
    requires FindField(rs, measurement, "median").None?
    ensures FindField(rs, measurement, "mean").Some? ==>
      GetValue(rs, measurement) == Field(rs[FindField(rs, measurement, "mean").value], "_value")
  {
    GetValuePriority(rs, measurement, "median", 1);
  }

  // ---------------------------------------------------------------------
  // extractPerformanceMetrics

  /** The keys the performance tab looks up, in order. */
  const ReportKeys: seq<string> := [
    "firstPaint", "firstContentfulPaint", "largestContentfulPaint",
    "SpeedIndex", "ttfb", "domInteractive", "pageLoadTime", "fullyLoaded",
    "FirstVisualChange", "LastVisualChange", "TotalBlockingTime"
  ]

  /** The page asks for exactly the metrics the server-side transformer
      selects, in the same order. */
  lemma ReportKeysAreServerMetricNames()
    ensures ReportKeys == PerformanceTransformer.MetricNames
  {
  }

  predicate IsMetricRecord(r: Record, name: string)
  {
    && IsStr(Field(r, "_measurement"), "visualMetrics")
    && IsStr(Field(r, "metricName"), name)
    && IsStr(Field(r, "_field"), "value")
  }

  function FindMetric(rs: seq<Record>, name: string): (k: Option<nat>)
    ensures k.Some? ==> k.value < |rs| && IsMetricRecord(rs[k.value], name)
    ensures k.Some? ==> forall j :: 0 <= j < k.value ==> !IsMetricRecord(rs[j], name)
    ensures k.None? ==> forall j :: 0 <= j < |rs| ==> !IsMetricRecord(rs[j], name)
  {
    if |rs| == 0 then None
    else if IsMetricRecord(rs[0], name) then Some(0)
    else
      match FindMetric(rs[1..], name)
      case None => None
      case Some(k) => Some(k + 1)
  }

  /** A cell of the performance table: 'N/A', or the raw `_value` of the
      record found (its `parseFloat(...).toFixed(0)` rendering is not
      modelled). */
  datatype Cell = NotAvailable | Found(raw: Value)

  /** The per-key lookup: the exact name first, then the lowercased one. */
  function MetricCell(rs: seq<Record>, key: string): Cell
  {
    match FindMetric(rs, key)
    case Some(i) => Found(Field(rs[i], "_value"))
    case None =>
      match FindMetric(rs, ToLower(key))
      case Some(i) => Found(Field(rs[i], "_value"))
      case None => NotAvailable
  }

  /** The two tiers: an exact match decides; otherwise a lowercased match;
      otherwise 'N/A'. A cell is 'N/A' exactly when neither name has a
      record. */
  lemma MetricCellTiers(rs: seq<Record>, key: string)
    ensures MetricCell(rs, key).NotAvailable? <==> FindMetric(rs, key).None? && FindMetric(rs, ToLower(key)).None?
    ensures FindMetric(rs, key).Some? ==> MetricCell(rs, key) == Found(Field(rs[FindMetric(rs, key).value], "_value"))
    ensures FindMetric(rs, key).None? && FindMetric(rs, ToLower(key)).Some? ==>
      MetricCell(rs, key) == Found(Field(rs[FindMetric(rs, ToLower(key)).value], "_value"))
  {
  }

  /** For a key that is already lowercase (of the eleven, `ttfb`) the
      second tier repeats the first. */
  lemma LowercaseTierRedundant(rs: seq<Record>, key: string)
    requires ToLower(key) == key
    ensures MetricCell(rs, key) == match FindMetric(rs, key)
      case Some(i) => Found(Field(rs[i], "_value"))
      case None => NotAvailable
  {
  }

  lemma TtfbIsLowercase()
    ensures ToLower("ttfb") == "ttfb"
  {
  }

  /** `extractPerformanceMetrics(records)`: one cell per key, in key order. */
  method ExtractPerformanceMetrics(records: seq<Record>) returns (metrics: seq<(string, Cell)>)
    ensures |metrics| == |ReportKeys|
    ensures forall k :: 0 <= k < |ReportKeys| ==> metrics[k] == (ReportKeys[k], MetricCell(records, ReportKeys[k]))
  {
    metrics := [];
    var k := 0;
    while k < |ReportKeys|
      invariant 0 <= k <= |ReportKeys|
      invariant |metrics| == k
      invariant forall j :: 0 <= j < k ==> metrics[j] == (ReportKeys[j], MetricCell(records, ReportKeys[j]))
    {
      var key := ReportKeys[k];
      var record := FindMetric(records, key);
      if record.None? {
        record := FindMetric(records, ToLower(key));
      }
      var cell := if record.Some? then Found(Field(records[record.value], "_value")) else NotAvailable;
      assert cell == MetricCell(records, key);
      metrics := metrics + [(key, cell)];
      k := k + 1;
    }
  }

  // ---------------------------------------------------------------------
  // extractCoachAdvice

  predicate IsAdviceRecord(r: Record)
  {
    IsStr(Field(r, "_measurement"), "coach_advice") && "adviceId" in r && Truthy(Field(r, "adviceId"))
  }

  /** `records.filter(r => r._measurement === 'coach_advice' && r.adviceId)`. */
  function AdviceRecords(rs: seq<Record>): (ars: seq<Record>)
    ensures forall i :: 0 <= i < |ars| ==> IsAdviceRecord(ars[i])
    ensures forall r :: r in ars <==> r in rs && IsAdviceRecord(r)
  {
    if |rs| == 0 then []
    else
      var rest := AdviceRecords(rs[..|rs| - 1]);
      assert rs == rs[..|rs| - 1] + [rs[|rs| - 1]];
      if IsAdviceRecord(rs[|rs| - 1]) then rest + [rs[|rs| - 1]] else rest
  }

  function AdviceId(r: Record): Json
    requires IsAdviceRecord(r)
  {
    r["adviceId"]
  }

  function AdviceIdsOf(ars: seq<Record>): (ids: seq<Json>)
    requires forall i :: 0 <= i < |ars| ==> IsAdviceRecord(ars[i])
    ensures |ids| == |ars| && forall i :: 0 <= i < |ars| ==> ids[i] == AdviceId(ars[i])
  {
    seq(|ars|, i requires 0 <= i < |ars| => AdviceId(ars[i]))
  }

  /** One entry of the advice list. */
  datatype AdviceEntry = AdviceEntry(id: Json, score: Value, title: Value, description: Value)

  /** The record is about advice `id` and carries its `field`. */
  predicate Supplies(r: Record, id: Json, field: string)
  {
    "adviceId" in r && r["adviceId"] == id && IsStr(Field(r, "_field"), field)
  }

  /** The `_value` of the last record for `id` whose `_field` is `field`, or
      `dflt` when there is none. */
  function LastFieldValue(ars: seq<Record>, id: Json, field: string, dflt: Value): Value
    requires forall i :: 0 <= i < |ars| ==> IsAdviceRecord(ars[i])
  {
    if |ars| == 0 then dflt
    else
      var r := ars[|ars| - 1];
      if Supplies(r, id, field) then Field(r, "_value")
      else LastFieldValue(ars[..|ars| - 1], id, field, dflt)
  }

  /** No record supplies the field: the default stays. */
  lemma {:induction false} NoSupplierKeepsDefault(ars: seq<Record>, id: Json, field: string, dflt: Value)
    requires forall i :: 0 <= i < |ars| ==> IsAdviceRecord(ars[i])
    requires forall i :: 0 <= i < |ars| ==> !Supplies(ars[i], id, field)
    ensures LastFieldValue(ars, id, field, dflt) == dflt
  {
    if |ars| > 0 {
      var init := ars[..|ars| - 1];
      assert !Supplies(ars[|ars| - 1], id, field);
      assert forall i :: 0 <= i < |init| ==> init[i] == ars[i];
      NoSupplierKeepsDefault(init, id, field, dflt);
    }
  }

  /** Otherwise the last record that supplies it wins. */
  lemma {:induction false} LastSupplierWins(ars: seq<Record>, id: Json, field: string, dflt: Value, i: nat)
    requires forall j :: 0 <= j < |ars| ==> IsAdviceRecord(ars[j])
    requires i < |ars| && Supplies(ars[i], id, field) && IsLastSupplier(ars, i, id, field)
    ensures LastFieldValue(ars, id, field, dflt) == Field(ars[i], "_value")
  {
    if i < |ars| - 1 {
      var init := ars[..|ars| - 1];
      assert !Supplies(ars[|ars| - 1], id, field);
      assert init[i] == ars[i];
      forall j | i < j < |init|
        ensures !Supplies(init[j], id, field)
      {
        assert init[j] == ars[j];
      }
      LastSupplierWins(init, id, field, dflt, i);
    }
  }

  predicate IsLastSupplier(ars: seq<Record>, i: nat, id: Json, field: string)
  {
    forall j :: i < j < |ars| ==> !Supplies(ars[j], id, field)
  }

  function EntryOf(ars: seq<Record>, id: Json): AdviceEntry
    requires forall i :: 0 <= i < |ars| ==> IsAdviceRecord(ars[i])
  {
    AdviceEntry(id, LastFieldValue(ars, id, "score", Some(JNum(0.0))),
                LastFieldValue(ars, id, "title", Some(JStr(""))),
                LastFieldValue(ars, id, "description", Some(JStr(""))))
  }

  /** What `extractCoachAdvice` returns: one entry per distinct advice id,
      in order of first appearance. */
  function CoachAdviceOf(rs: seq<Record>): seq<AdviceEntry>
  {
    var ars := AdviceRecords(rs);
    var ids := Distinct(AdviceIdsOf(ars));
    seq(|ids|, i requires 0 <= i < |ids| => EntryOf(ars, ids[i]))
  }

  predicate NoScoreRecord(rs: seq<Record>, id: Json)
  {
    forall r :: r in rs && IsAdviceRecord(r) ==> !Supplies(r, id, "score")
  }

  /** The entries follow the distinct advice ids. */
  lemma CoachAdviceOrder(rs: seq<Record>)
    ensures var ids := Distinct(AdviceIdsOf(AdviceRecords(rs)));
      |CoachAdviceOf(rs)| == |ids| && forall k :: 0 <= k < |ids| ==> CoachAdviceOf(rs)[k].id == ids[k]
  {
  }

  lemma AdviceIdsPresent(ars: seq<Record>, id: Json)
    requires forall i :: 0 <= i < |ars| ==> IsAdviceRecord(ars[i])
    ensures id in AdviceIdsOf(ars) <==> exists r :: r in ars && AdviceId(r) == id
  {
    if id in AdviceIdsOf(ars) {
      var i :| 0 <= i < |ars| && AdviceIdsOf(ars)[i] == id;
      assert ars[i] in ars;
    }
    if exists r :: r in ars && AdviceId(r) == id {
      var r :| r in ars && AdviceId(r) == id;
      var i :| 0 <= i < |ars| && ars[i] == r;
      assert AdviceIdsOf(ars)[i] == id;
    }
  }

  /** One entry per distinct id of an advice record. */
  lemma CoachAdviceIds(rs: seq<Record>, id: Json)
    ensures (exists k :: 0 <= k < |CoachAdviceOf(rs)| && CoachAdviceOf(rs)[k].id == id) <==>
      exists r :: r in rs && IsAdviceRecord(r) && AdviceId(r) == id
  {
    var ars := AdviceRecords(rs);
    var ids := Distinct(AdviceIdsOf(ars));
    CoachAdviceOrder(rs);
    AdviceIdsPresent(ars, id);
    if exists k :: 0 <= k < |CoachAdviceOf(rs)| && CoachAdviceOf(rs)[k].id == id {
      var k :| 0 <= k < |CoachAdviceOf(rs)| && CoachAdviceOf(rs)[k].id == id;
      assert ids[k] in ids;
      var r :| r in ars && AdviceId(r) == id;
      assert r in rs && IsAdviceRecord(r);
    }
    if exists r :: r in rs && IsAdviceRecord(r) && AdviceId(r) == id {
      var r :| r in rs && IsAdviceRecord(r) && AdviceId(r) == id;
      assert r in ars;
      var k :| 0 <= k < |ids| && ids[k] == id;
      assert CoachAdviceOf(rs)[k].id == id;
    }
  }

  /** No advice id is listed twice. */
  lemma CoachAdviceDistinct(rs: seq<Record>)
    ensures forall k, l :: 0 <= k < l < |CoachAdviceOf(rs)| ==> CoachAdviceOf(rs)[k].id != CoachAdviceOf(rs)[l].id
  {
    CoachAdviceOrder(rs);
  }

  /** An entry without a `score` record keeps the default 0. */
  lemma CoachAdviceDefaultScore(rs: seq<Record>, k: nat)
    requires k < |CoachAdviceOf(rs)|
    requires NoScoreRecord(rs, CoachAdviceOf(rs)[k].id)
    ensures CoachAdviceOf(rs)[k].score == Some(JNum(0.0))
  {
    var ars := AdviceRecords(rs);
    var id := CoachAdviceOf(rs)[k].id;
    forall i | 0 <= i < |ars|
      ensures !Supplies(ars[i], id, "score")
    {
      assert ars[i] in ars;
    }
    NoSupplierKeepsDefault(ars, id, "score", Some(JNum(0.0)));
  }

  /** The advice map after one record: its entry is created with the
      defaults if missing, then the field the record names is overwritten. */
  function AdviceMapStep(m: map<Json, AdviceEntry>, r: Record): map<Json, AdviceEntry>
    requires IsAdviceRecord(r)
  {
    var id := AdviceId(r);
    var e := if id in m then m[id] else AdviceEntry(id, Some(JNum(0.0)), Some(JStr("")), Some(JStr("")));
    var f := Field(r, "_field");
    m[id := e.(score := if IsStr(f, "score") then Field(r, "_value") else e.score,
               title := if IsStr(f, "title") then Field(r, "_value") else e.title,
               description := if IsStr(f, "description") then Field(r, "_value") else e.description)]
  }

  /** The body of the `forEach` over advice records. */
  method AddAdviceRecord(adviceMap: map<Json, AdviceEntry>, r: Record) returns (adviceMap': map<Json, AdviceEntry>)
    requires IsAdviceRecord(r)
    ensures adviceMap' == AdviceMapStep(adviceMap, r)
  {
    var id := AdviceId(r);
    adviceMap' := adviceMap;
    if id !in adviceMap' {
      adviceMap' := adviceMap'[id := AdviceEntry(id, Some(JNum(0.0)), Some(JStr("")), Some(JStr("")))];
    }
    if IsStr(Field(r, "_field"), "score") {
      adviceMap' := adviceMap'[id := adviceMap'[id].(score := Field(r, "_value"))];
    }
    if IsStr(Field(r, "_field"), "title") {
      adviceMap' := adviceMap'[id := adviceMap'[id].(title := Field(r, "_value"))];
    }
    if IsStr(Field(r, "_field"), "description") {
      adviceMap' := adviceMap'[id := adviceMap'[id].(description := Field(r, "_value"))];
    }
  }

  /** The advice map after the first `i` records is exactly the entries of
      the ids seen so far. */
  ghost predicate AdviceMapAfter(ars: seq<Record>, i: nat, m: map<Json, AdviceEntry>)
    requires i <= |ars|
    requires forall j :: 0 <= j < |ars| ==> IsAdviceRecord(ars[j])
  {
    && (forall id :: id in m <==> id in AdviceIdsOf(ars[..i]))
    && (forall id :: id in m ==> m[id] == EntryOf(ars[..i], id))
  }

  lemma AdviceMapGrows(ars: seq<Record>, i: nat, m: map<Json, AdviceEntry>)
    requires i < |ars|
    requires forall j :: 0 <= j < |ars| ==> IsAdviceRecord(ars[j])
    requires AdviceMapAfter(ars, i, m)
    ensures AdviceMapAfter(ars, i + 1, AdviceMapStep(m, ars[i]))
    ensures AdviceIdsOf(ars[..i + 1]) == AdviceIdsOf(ars[..i]) + [AdviceId(ars[i])]
  {
    var r := ars[i];
    var m' := AdviceMapStep(m, r);
    assert ars[..i + 1][..i] == ars[..i];
    assert ars[..i + 1][i] == r;
    assert AdviceIdsOf(ars[..i + 1]) == AdviceIdsOf(ars[..i]) + [AdviceId(r)];
    if AdviceId(r) !in m {
      FreshEntry(ars[..i], AdviceId(r));
    }
    forall id | id in m'
      ensures m'[id] == EntryOf(ars[..i + 1], id)
    {
      assert LastFieldValue(ars[..i + 1], id, "score", Some(JNum(0.0))) ==
        if Supplies(r, id, "score") then Field(r, "_value") else LastFieldValue(ars[..i], id, "score", Some(JNum(0.0)));
      assert LastFieldValue(ars[..i + 1], id, "title", Some(JStr(""))) ==
        if Supplies(r, id, "title") then Field(r, "_value") else LastFieldValue(ars[..i], id, "title", Some(JStr("")));
      assert LastFieldValue(ars[..i + 1], id, "description", Some(JStr(""))) ==
        if Supplies(r, id, "description") then Field(r, "_value") else LastFieldValue(ars[..i], id, "description", Some(JStr("")));
    }
  }

  lemma FreshEntry(ars: seq<Record>, id: Json)
    requires forall j :: 0 <= j < |ars| ==> IsAdviceRecord(ars[j])
    requires id !in AdviceIdsOf(ars)
    ensures EntryOf(ars, id) == AdviceEntry(id, Some(JNum(0.0)), Some(JStr("")), Some(JStr("")))
  {
    forall j | 0 <= j < |ars|
      ensures !Supplies(ars[j], id, "score") && !Supplies(ars[j], id, "title") && !Supplies(ars[j], id, "description")
    {
      assert AdviceIdsOf(ars)[j] == AdviceId(ars[j]);
    }
    NoSupplierKeepsDefault(ars, id, "score", Some(JNum(0.0)));
    NoSupplierKeepsDefault(ars, id, "title", Some(JStr("")));
    NoSupplierKeepsDefault(ars, id, "description", Some(JStr("")));
  }

  /** One turn of the `forEach` over advice records: the map takes its step
      and an id not seen yet joins the key order. */
  lemma AdviceOrderGrows(ars: seq<Record>, i: nat, m: map<Json, AdviceEntry>)
    requires i < |ars|
    requires forall j :: 0 <= j < |ars| ==> IsAdviceRecord(ars[j])
    requires AdviceMapAfter(ars, i, m)
    ensures AdviceMapAfter(ars, i + 1, AdviceMapStep(m, ars[i]))
    ensures Distinct(AdviceIdsOf(ars[..i + 1])) ==
      if AdviceId(ars[i]) in m then Distinct(AdviceIdsOf(ars[..i]))
      else Distinct(AdviceIdsOf(ars[..i])) + [AdviceId(ars[i])]
  {
    AdviceMapGrows(ars, i, m);
    DistinctSnoc(AdviceIdsOf(ars[..i]), AdviceId(ars[i]));
    assert AdviceId(ars[i]) in m <==> AdviceId(ars[i]) in AdviceIdsOf(ars[..i]);
  }

  /** `Object.values(adviceMap)` once every advice record is folded in. */
  lemma AdviceMapValues(rs: seq<Record>, m: map<Json, AdviceEntry>, order: seq<Json>)
    requires AdviceMapAfter(AdviceRecords(rs), |AdviceRecords(rs)|, m)
    requires order == Distinct(AdviceIdsOf(AdviceRecords(rs)[..|AdviceRecords(rs)|]))
    ensures forall j :: 0 <= j < |order| ==> order[j] in m
    ensures seq(|order|, j requires 0 <= j < |order| => m[order[j]]) == CoachAdviceOf(rs)
  {
    var ars := AdviceRecords(rs);
    assert ars[..|ars|] == ars;
    forall j | 0 <= j < |order| ensures order[j] in m && m[order[j]] == EntryOf(ars, order[j]) {
      assert order[j] in order;
    }
  }

  /** `extractCoachAdvice(records)`. */
  method ExtractCoachAdvice(records: seq<Record>) returns (advice: seq<AdviceEntry>)
    ensures advice == CoachAdviceOf(records)
  {
    var adviceRecords := AdviceRecords(records);
    if |adviceRecords| == 0 {
      return [];
    }
    var adviceMap: map<Json, AdviceEntry> := map[];
    var order: seq<Json> := [];  // the object's keys in insertion order
    var i := 0;
    while i < |adviceRecords|
      invariant 0 <= i <= |adviceRecords|
      invariant order == Distinct(AdviceIdsOf(adviceRecords[..i]))
      invariant AdviceMapAfter(adviceRecords, i, adviceMap)
    {
      var r := adviceRecords[i];
      AdviceOrderGrows(adviceRecords, i, adviceMap);
      if AdviceId(r) !in adviceMap {
        order := order + [AdviceId(r)];
      }
      adviceMap := AddAdviceRecord(adviceMap, r);
      i := i + 1;
    }
    AdviceMapValues(records, adviceMap, order);
    advice := seq(|order|, j requires 0 <= j < |order| => adviceMap[order[j]]);
  }

  // ---------------------------------------------------------------------
  // extractPageXrayData

  predicate IsPagexray(r: Record)
  {
    IsStr(Field(r, "_measurement"), "pagexray")
  }

  function PagexrayRecords(rs: seq<Record>): (prs: seq<Record>)
    ensures forall r :: r in prs <==> r in rs && IsPagexray(r)
  {
    if |rs| == 0 then []
    else
      var rest := PagexrayRecords(rs[..|rs| - 1]);
      assert rs == rs[..|rs| - 1] + [rs[|rs| - 1]];
      if IsPagexray(rs[|rs| - 1]) then rest + [rs[|rs| - 1]] else rest
  }

  /** The content types present, each once, in order of first appearance:
      `[...new Set(records.map(r => r.contentType).filter(Boolean))]`. */
  function ContentTypes(prs: seq<Record>): (ts: seq<Json>)
    ensures forall t :: t in ts <==> exists i :: 0 <= i < |prs| && Truthy(Field(prs[i], "contentType")) && prs[i]["contentType"] == t
  {
    var vs := seq(|prs|, i requires 0 <= i < |prs| => Field(prs[i], "contentType"));
    assert forall i :: 0 <= i < |prs| ==> vs[i] == Field(prs[i], "contentType");
    Distinct(TruthyValues(vs))
  }

  /** `records.filter(r => r.contentType === type)`. */
  function OfType(prs: seq<Record>, t: Json): (trs: seq<Record>)
    ensures forall r :: r in trs <==> r in prs && Field(r, "contentType") == Some(t)
  {
    if |prs| == 0 then []
    else
      var rest := OfType(prs[..|prs| - 1], t);
      assert prs == prs[..|prs| - 1] + [prs[|prs| - 1]];
      if Field(prs[|prs| - 1], "contentType") == Some(t) then rest + [prs[|prs| - 1]] else rest
  }

  function FindNamedField(trs: seq<Record>, field: string): (k: Option<nat>)
    ensures k.Some? ==> k.value < |trs| && IsStr(Field(trs[k.value], "_field"), field)
    ensures k.Some? ==> forall j :: 0 <= j < k.value ==> !IsStr(Field(trs[j], "_field"), field)
    ensures k.None? ==> forall j :: 0 <= j < |trs| ==> !IsStr(Field(trs[j], "_field"), field)
  {
    if |trs| == 0 then None
    else if IsStr(Field(trs[0], "_field"), field) then Some(0)
    else
      match FindNamedField(trs[1..], field)
      case None => None
      case Some(k) => Some(k + 1)
  }

  /** `rec ? parseInt(rec._value, 10) : 0` for the first record of the field. */
  function Count(trs: seq<Record>, field: string): JsInt
  {
    match FindNamedField(trs, field)
    case None => Int(0)
    case Some(i) => ParseInt(Field(trs[i], "_value"), true)
  }

  datatype TypeSummary = TypeSummary(requests: JsInt, size: JsInt, transferSize: JsInt)

  function SummaryOfType(prs: seq<Record>, t: Json): TypeSummary
  {
    var trs := OfType(prs, t);
    TypeSummary(Count(trs, "requests"), Count(trs, "contentSize"), Count(trs, "transferSize"))
  }

  /** `x > 0` for a `parseInt` result; NaN is not positive. */
  predicate Positive(x: JsInt)
  {
    x.Int? && x.i > 0
  }

  /** `a + b` on `parseInt` results: NaN is contagious. */
  function Plus(a: JsInt, b: JsInt): (c: JsInt)
    ensures c.Int? <==> a.Int? && b.Int?
    ensures c.Int? ==> c.i == a.i + b.i
  {
    if a.Int? && b.Int? then Int(a.i + b.i) else NaN
  }

  /** A content type is shown when it has requests or size. */
  predicate Kept(s: TypeSummary)
  {
    Positive(s.requests) || Positive(s.size)
  }

  /** The kept content types among `ts`, in order, with their summaries. */
  function KeptTypes(prs: seq<Record>, ts: seq<Json>): seq<(Json, TypeSummary)>
  {
    if |ts| == 0 then []
    else
      var rest := KeptTypes(prs, ts[..|ts| - 1]);
      var t := ts[|ts| - 1];
      if Listed(prs, t) then rest + [(t, SummaryOfType(prs, t))] else rest
  }

  /** The type has records and is kept. */
  predicate Listed(prs: seq<Record>, t: Json)
  {
    |OfType(prs, t)| > 0 && Kept(SummaryOfType(prs, t))
  }

  function TotalRequests(cts: seq<(Json, TypeSummary)>): JsInt
  {
    if |cts| == 0 then Int(0) else Plus(TotalRequests(cts[..|cts| - 1]), cts[|cts| - 1].1.requests)
  }

  function TotalSize(cts: seq<(Json, TypeSummary)>): JsInt
  {
    if |cts| == 0 then Int(0) else Plus(TotalSize(cts[..|cts| - 1]), cts[|cts| - 1].1.size)
  }

  datatype PagexrayView = PagexrayView(contentTypes: seq<(Json, TypeSummary)>, totalRequests: JsInt, totalSize: JsInt)

  /** What `extractPageXrayData` returns. */
  function PagexrayViewOf(rs: seq<Record>): PagexrayView
  {
    var prs := PagexrayRecords(rs);
    var kept := KeptTypes(prs, ContentTypes(prs));
    PagexrayView(kept, TotalRequests(kept), TotalSize(kept))
  }

  /** Zero-dropping: a content type is listed iff some record carries it
      and it has requests > 0 or size > 0, and its entry is its summary. */
  lemma {:induction false} KeptTypesMember(prs: seq<Record>, ts: seq<Json>, t: Json, s: TypeSummary)
    ensures (t, s) in KeptTypes(prs, ts) <==> t in ts && Listed(prs, t) && s == SummaryOfType(prs, t)
  {
    if |ts| > 0 {
      var init := ts[..|ts| - 1];
      var last := ts[|ts| - 1];
      assert ts == init + [last];
      KeptTypesMember(prs, init, t, s);
    }
  }

  /** No content type is listed twice. */
  lemma {:induction false} KeptTypesDistinct(prs: seq<Record>, ts: seq<Json>)
    requires forall i, j :: 0 <= i < j < |ts| ==> ts[i] != ts[j]
    ensures forall i, j :: 0 <= i < j < |KeptTypes(prs, ts)| ==> KeptTypes(prs, ts)[i].0 != KeptTypes(prs, ts)[j].0
  {
    if |ts| > 0 {
      var init := ts[..|ts| - 1];
      KeptTypesDistinct(prs, init);
      KeptTypesIn(prs, init);
    }
  }

  lemma {:induction false} KeptTypesIn(prs: seq<Record>, ts: seq<Json>)
    ensures forall e :: e in KeptTypes(prs, ts) ==> e.0 in ts
  {
    if |ts| > 0 {
      KeptTypesIn(prs, ts[..|ts| - 1]);
    }
  }

  /** The view lists exactly the kept content types; a type whose requests
      and size are both 0 (or not numbers) is dropped and adds nothing to
      the totals. */
  lemma PagexrayViewTypes(rs: seq<Record>, t: Json, s: TypeSummary)
    ensures (t, s) in PagexrayViewOf(rs).contentTypes <==>
      && (exists r :: r in rs && IsPagexray(r) && Truthy(Field(r, "contentType")) && r["contentType"] == t)
      && s == SummaryOfType(PagexrayRecords(rs), t) && Kept(s)
  {
    var prs := PagexrayRecords(rs);
    KeptTypesMember(prs, ContentTypes(prs), t, s);
    TypePresent(rs, t);
    TypeHasRecords(prs, t);
  }

  /** A content type is present exactly when a record of the measurement
      carries it. */
  lemma TypePresent(rs: seq<Record>, t: Json)
    ensures var prs := PagexrayRecords(rs);
      t in ContentTypes(prs) <==> exists r :: r in rs && IsPagexray(r) && Truthy(Field(r, "contentType")) && r["contentType"] == t
  {
    var prs := PagexrayRecords(rs);
    if exists r :: r in rs && IsPagexray(r) && Truthy(Field(r, "contentType")) && r["contentType"] == t {
      var r :| r in rs && IsPagexray(r) && Truthy(Field(r, "contentType")) && r["contentType"] == t;
      assert r in prs;
      var i :| 0 <= i < |prs| && prs[i] == r;
    }
  }

  /** A present content type has records. */
  lemma TypeHasRecords(prs: seq<Record>, t: Json)
    ensures t in ContentTypes(prs) ==> |OfType(prs, t)| > 0
  {
    if t in ContentTypes(prs) {
      var i :| 0 <= i < |prs| && Truthy(Field(prs[i], "contentType")) && prs[i]["contentType"] == t;
      assert prs[i] in OfType(prs, t);
    }
  }

  lemma KeptTypesTurn(prs: seq<Record>, ts: seq<Json>, k: nat)
    requires k < |ts|
    ensures KeptTypes(prs, ts[..k + 1]) ==
      if Listed(prs, ts[k]) then KeptTypes(prs, ts[..k]) + [(ts[k], SummaryOfType(prs, ts[k]))] else KeptTypes(prs, ts[..k])
  {
    assert ts[..k + 1][..k] == ts[..k];
  }

  lemma TotalsSnoc(cts: seq<(Json, TypeSummary)>, e: (Json, TypeSummary))
    ensures TotalRequests(cts + [e]) == Plus(TotalRequests(cts), e.1.requests)
    ensures TotalSize(cts + [e]) == Plus(TotalSize(cts), e.1.size)
  {
    assert (cts + [e])[..|cts|] == cts;
  }

  /** `extractPageXrayData(records)`. */
  method ExtractPageXrayData(records: seq<Record>) returns (view: PagexrayView)
    ensures view == PagexrayViewOf(records)
  {
    var pageXrayRecords := PagexrayRecords(records);
    var types := ContentTypes(pageXrayRecords);
    var contentTypes: seq<(Json, TypeSummary)> := [];
    var totalRequests := Int(0);
    var totalSize := Int(0);
    var k := 0;
    while k < |types|
      invariant 0 <= k <= |types|
      invariant contentTypes == KeptTypes(pageXrayRecords, types[..k])
      invariant totalRequests == TotalRequests(contentTypes)
      invariant totalSize == TotalSize(contentTypes)
    {
      var t := types[k];
      var typeRecords := OfType(pageXrayRecords, t);
      KeptTypesTurn(pageXrayRecords, types, k);
      if |typeRecords| > 0 {
        var reqRecord := FindNamedField(typeRecords, "requests");
        var sizeRecord := FindNamedField(typeRecords, "contentSize");
        var transferRecord := FindNamedField(typeRecords, "transferSize");
        var reqs := if reqRecord.Some? then ParseInt(Field(typeRecords[reqRecord.value], "_value"), true) else Int(0);
        var size := if sizeRecord.Some? then ParseInt(Field(typeRecords[sizeRecord.value], "_value"), true) else Int(0);
        var transfer := if transferRecord.Some? then ParseInt(Field(typeRecords[transferRecord.value], "_value"), true) else Int(0);
        assert TypeSummary(reqs, size, transfer) == SummaryOfType(pageXrayRecords, t);
        if Positive(reqs) || Positive(size) {
          TotalsSnoc(contentTypes, (t, TypeSummary(reqs, size, transfer)));
          contentTypes := contentTypes + [(t, TypeSummary(reqs, size, transfer))];
          totalRequests := Plus(totalRequests, reqs);
          totalSize := Plus(totalSize, size);
        }
      }
      k := k + 1;
    }
    assert types[..k] == types;
    view := PagexrayView(contentTypes, totalRequests, totalSize);
  }

  // ---------------------------------------------------------------------
  // extractMedia

  datatype Media = Media(video: Value, screenshot: Value)

  /** `extractMedia(records)`: the `_value` of the first `video_path` and
      of the first `lcp_screenshot_path` record of `media_assets`, each null
      when there is none. */
  function ExtractMedia(rs: seq<Record>): (m: Media)
    ensures FindField(rs, "media_assets", "video_path").None? ==> m.video == Some(JNull)
    ensures FindField(rs, "media_assets", "video_path").Some? ==>
      m.video == Field(rs[FindField(rs, "media_assets", "video_path").value], "_value")
    ensures FindField(rs, "media_assets", "lcp_screenshot_path").None? ==> m.screenshot == Some(JNull)
    ensures FindField(rs, "media_assets", "lcp_screenshot_path").Some? ==>
      m.screenshot == Field(rs[FindField(rs, "media_assets", "lcp_screenshot_path").value], "_value")
  {
    Media(ValueAt(rs, FindField(rs, "media_assets", "video_path")),
          ValueAt(rs, FindField(rs, "media_assets", "lcp_screenshot_path")))
  }

  /** Records of other measurements or fields never change the media found. */
  lemma {:induction false} ExtractMediaIgnoresOthers(rs1: seq<Record>, r: Record, rs2: seq<Record>)
    requires !HasMeasurementField(r, "media_assets", "video_path") && !HasMeasurementField(r, "media_assets", "lcp_screenshot_path")
    ensures ExtractMedia(rs1 + [r] + rs2) == ExtractMedia(rs1 + rs2)
  {
    FindFieldSkips(rs1, r, rs2, "media_assets", "video_path");
    FindFieldSkips(rs1, r, rs2, "media_assets", "lcp_screenshot_path");
  }

  lemma {:induction false} FindFieldSkips(rs1: seq<Record>, r: Record, rs2: seq<Record>, measurement: string, field: string)
    requires !HasMeasurementField(r, measurement, field)
    ensures ValueAt(rs1 + [r] + rs2, FindField(rs1 + [r] + rs2, measurement, field)) ==
            ValueAt(rs1 + rs2, FindField(rs1 + rs2, measurement, field))
  {
    if |rs1| == 0 {
      assert rs1 + [r] + rs2 == [r] + rs2;
      assert rs1 + rs2 == rs2;
      FindFieldCons(rs2, r, measurement, field);
    } else {
      var h, t := rs1[0], rs1[1..];
      FindFieldSkips(t, r, rs2, measurement, field);
      assert rs1 + [r] + rs2 == [h] + (t + [r] + rs2);
      assert rs1 + rs2 == [h] + (t + rs2);
      FindFieldCons(t + [r] + rs2, h, measurement, field);
      FindFieldCons(t + rs2, h, measurement, field);
    }
  }

  lemma FindFieldCons(xs: seq<Record>, x: Record, measurement: string, field: string)
    ensures ValueAt([x] + xs, FindField([x] + xs, measurement, field)) ==
      if HasMeasurementField(x, measurement, field) then Field(x, "_value")
      else ValueAt(xs, FindField(xs, measurement, field))
  {
    assert ([x] + xs)[0] == x;
    assert ([x] + xs)[1..] == xs;
  }

  // ---------------------------------------------------------------------
  // processData

  /** `d.url || d.group` */
  function RawId(r: Record): Value
  {
    Or(Field(r, "url"), Field(r, "group"))
  }

  /** The normalised ids of all records, or `None` when `normalize` throws. */
  function NormalizedIds(rs: seq<Record>): (ids: Option<seq<Value>>)
    ensures ids.Some? <==> forall i :: 0 <= i < |rs| ==> Normalize(RawId(rs[i])).Some?
    ensures ids.Some? ==> |ids.value| == |rs| && forall i :: 0 <= i < |rs| ==> ids.value[i] == Normalize(RawId(rs[i])).value
  {
    if |rs| == 0 then Some([])
    else
      var init := NormalizedIds(rs[..|rs| - 1]);
      assert forall i :: 0 <= i < |rs| - 1 ==> rs[..|rs| - 1][i] == rs[i];
      match Normalize(RawId(rs[|rs| - 1]))
      case None => None
      case Some(id) =>
        match init
        case None => None
        case Some(ids) => Some(ids + [id])
  }

  /** The indices of the records whose normalised id is `key`, ascending. */
  function GroupIndices(ids: seq<Value>, key: Json): (gi: seq<nat>)
    ensures forall i: nat :: i in gi <==> i < |ids| && ids[i] == Some(key)
    ensures forall a, b :: 0 <= a < b < |gi| ==> gi[a] < gi[b]
    ensures forall a :: 0 <= a < |gi| ==> gi[a] < |ids|
  {
    if |ids| == 0 then []
    else
      var init := GroupIndices(ids[..|ids| - 1], key);
      if ids[|ids| - 1] == Some(key) then init + [|ids| - 1] else init
  }

  /** `allData.filter(d => d._normalizedId === urlKey)` */
  function GroupOf(rs: seq<Record>, ids: seq<Value>, key: Json): (g: seq<Record>)
    requires |ids| == |rs|
  {
    var gi := GroupIndices(ids, key);
    seq(|gi|, a requires 0 <= a < |gi| => rs[gi[a]])
  }

  /** The summary fields modelled: the page id and the first record's
      `browser` ('N/A' without records); the timestamp is not modelled. */
  datatype Summary = Summary(url: Json, browser: Value)

  function SummaryOf(group: seq<Record>, key: Json): Summary
  {
    Summary(key, if |group| > 0 then Field(group[0], "browser") else Some(JStr("N/A")))
  }

  datatype PageView = PageView(summary: Summary, media: Media)

  /** `processedDataByUrl` with its keys in insertion order. */
  datatype Grouping = Grouping(order: seq<Json>, pages: map<Json, PageView>)

  /** Every record with a truthy normalised id lands in exactly one group,
      the group of its own id; a record with a falsy id lands in none. */
  lemma GroupsPartition(ids: seq<Value>, i: nat)
    requires i < |ids|
    ensures Truthy(ids[i]) ==> ids[i].value in Distinct(TruthyValues(ids))
    ensures forall key :: key in Distinct(TruthyValues(ids)) ==> (i in GroupIndices(ids, key) <==> ids[i] == Some(key))
    ensures !Truthy(ids[i]) ==> forall key :: key in Distinct(TruthyValues(ids)) ==> i !in GroupIndices(ids, key)
  {
    forall key | key in Distinct(TruthyValues(ids))
      ensures Truthy(Some(key))
    {
      var j :| 0 <= j < |ids| && Truthy(ids[j]) && ids[j].value == key;
    }
  }

  lemma NormalizedIdsSnoc(rs: seq<Record>, i: nat, ids: seq<Value>, id: Value)
    requires i < |rs| && NormalizedIds(rs[..i]) == Some(ids) && Normalize(RawId(rs[i])) == Some(id)
    ensures NormalizedIds(rs[..i + 1]) == Some(ids + [id])
  {
    assert rs[..i + 1][..i] == rs[..i];
  }

  lemma TruthyValuesSnoc(vs: seq<Value>, v: Value)
    ensures TruthyValues(vs + [v]) == if Truthy(v) then TruthyValues(vs) + [v.value] else TruthyValues(vs)
  {
    assert (vs + [v])[..|vs|] == vs;
  }

  /** One turn of the first `forEach` of `processData`: the id is appended,
      and a truthy id not seen yet joins the unique pages. */
  lemma NormalizeStep(rs: seq<Record>, i: nat, ids: seq<Value>, id: Value)
    requires i < |rs| && NormalizedIds(rs[..i]) == Some(ids) && Normalize(RawId(rs[i])) == Some(id)
    ensures NormalizedIds(rs[..i + 1]) == Some(ids + [id])
    ensures Distinct(TruthyValues(ids + [id])) ==
      if Truthy(id) && id.value !in Distinct(TruthyValues(ids)) then Distinct(TruthyValues(ids)) + [id.value]
      else Distinct(TruthyValues(ids))
  {
    NormalizedIdsSnoc(rs, i, ids, id);
    TruthyValuesSnoc(ids, id);
    if Truthy(id) {
      DistinctSnoc(TruthyValues(ids), id.value);
    }
  }

  /** The first `forEach` of `processData`: every record's normalised id,
      and the distinct truthy ones in order of first appearance. */
  method NormalizeAll(allData: seq<Record>) returns (ids: Option<seq<Value>>, uniquePages: seq<Json>)
    ensures ids == NormalizedIds(allData)
    ensures ids.Some? ==> uniquePages == Distinct(TruthyValues(ids.value))
  {
    var done: seq<Value> := [];
    uniquePages := [];
    var i := 0;
    while i < |allData|
      invariant 0 <= i <= |allData|
      invariant NormalizedIds(allData[..i]) == Some(done)
      invariant uniquePages == Distinct(TruthyValues(done))
    {
      var id := Normalize(RawId(allData[i]));
      if id.None? {
        return None, uniquePages;
      }
      NormalizeStep(allData, i, done, id.value);
      if Truthy(id.value) && id.value.value !in uniquePages {
        uniquePages := uniquePages + [id.value.value];
      }
      done := done + [id.value];
      i := i + 1;
    }
    assert allData[..i] == allData;
    ids := Some(done);
  }

  /** What `processedDataByUrl[key]` holds for a page id. */
  function PageOf(allData: seq<Record>, ids: seq<Value>, key: Json): PageView
    requires |ids| == |allData|
  {
    var group := GroupOf(allData, ids, key);
    PageView(SummaryOf(group, key), ExtractMedia(group))
  }

  /** The second `forEach` of `processData`. */
  method BuildPages(allData: seq<Record>, ids: seq<Value>, urls: seq<Json>) returns (result: Grouping)
    requires |ids| == |allData|
    requires forall key :: key in urls ==> key in Distinct(TruthyValues(ids))
    ensures result.order == urls
    ensures forall key :: key in result.pages <==> key in urls
    ensures forall key :: key in result.pages ==>
      |GroupOf(allData, ids, key)| > 0 && result.pages[key] == PageOf(allData, ids, key)
  {
    var pages: map<Json, PageView> := map[];
    var order: seq<Json> := [];
    var k := 0;
    while k < |urls|
      invariant 0 <= k <= |urls|
      invariant order == urls[..k]
      invariant forall key :: key in pages <==> key in order
      invariant forall key :: key in pages ==> |GroupOf(allData, ids, key)| > 0 && pages[key] == PageOf(allData, ids, key)
    {
      var urlKey := urls[k];
      var recordsForUrl := GroupOf(allData, ids, urlKey);
      GroupNonEmpty(ids, urlKey);
      if |recordsForUrl| > 0 {
        pages := pages[urlKey := PageView(SummaryOf(recordsForUrl, urlKey), ExtractMedia(recordsForUrl))];
        order := order + [urlKey];
      }
      assert urls[..k + 1] == urls[..k] + [urlKey];
      k := k + 1;
    }
    assert urls[..k] == urls;
    result := Grouping(order, pages);
  }

  /** `processData()`: `None` when `normalize` throws; otherwise one page
      per distinct truthy normalised id, in order of first appearance, each
      built from exactly the records with that id. */
  method ProcessData(allData: seq<Record>) returns (result: Option<Grouping>)
    ensures result.None? <==> exists i :: 0 <= i < |allData| && Normalize(RawId(allData[i])).None?
    ensures result.Some? ==>
      var ids := NormalizedIds(allData).value;
      && result.value.order == Distinct(TruthyValues(ids))
      && (forall key :: key in result.value.pages <==> key in result.value.order)
      && (forall key :: key in result.value.pages ==>
            |GroupOf(allData, ids, key)| > 0 && result.value.pages[key] == PageOf(allData, ids, key))
  {
    var ids, uniquePages := NormalizeAll(allData);
    if ids.None? {
      return None;
    }
    var grouping := BuildPages(allData, ids.value, uniquePages);
    result := Some(grouping);
  }

  /** A url that is a lone '/' normalises to the empty string, which is
      falsy: its records belong to no page. */
  lemma LoneSlashHasNoPage(ids: seq<Value>, i: nat)
    requires i < |ids| && ids[i] == Some(JStr(""))
    ensures forall key :: key in Distinct(TruthyValues(ids)) ==> i !in GroupIndices(ids, key)
    ensures Normalize(Some(JStr("/"))) == Some(Some(JStr("")))
  {
    GroupsPartition(ids, i);
  }

  /** Every page id has at least one record. */
  lemma GroupNonEmpty(ids: seq<Value>, key: Json)
    requires key in Distinct(TruthyValues(ids))
    ensures |GroupIndices(ids, key)| > 0
  {
    var j :| 0 <= j < |ids| && Truthy(ids[j]) && ids[j].value == key;
    assert j in GroupIndices(ids, key);
  }
}
