/**
 * The server-side performance transformer: selection of the eleven known
 * timing metrics from flat `visualMetrics` records, and the small helpers
 * that inspect and format the resulting object.
 */
module PerformanceTransformer {
  import opened Js

  /** The supported performance metric names, in the order the result
      object receives them. */
  const MetricNames: seq<string> := [
    "firstPaint",
    "firstContentfulPaint",
    "largestContentfulPaint",
    "SpeedIndex",
    "ttfb",
    "domInteractive",
    "pageLoadTime",
    "fullyLoaded",
    "FirstVisualChange",
    "LastVisualChange",
    "TotalBlockingTime"
  ]

  lemma MetricNamesDistinct()
    ensures forall i, j :: 0 <= i < j < |MetricNames| ==> MetricNames[i] != MetricNames[j]
  {
  }

  /** A JavaScript object as its entries, in key order (an object has no
      two entries with one key); a value may be `undefined`. */
  type Metrics = seq<(string, Value)>

  function Keys(m: Metrics): (ks: seq<string>)
    ensures |ks| == |m| && forall i :: 0 <= i < |m| ==> ks[i] == m[i].0
  {
    if |m| == 0 then [] else [m[0].0] + Keys(m[1..])
  }

  /** A record that transformPerformanceRecords stores under `name`. */
  predicate Qualifies(r: Record, name: string)
  {
    IsStr(Field(r, "metricName"), name) && IsStr(Field(r, "_field"), "value")
  }

  /** The value stored for `name` after the records: the `_value` of the
      last qualifying record, or null when there is none. */
  function LatestValue(rs: seq<Record>, name: string): Value
  {
    if |rs| == 0 then Some(JNull)
    else if Qualifies(rs[|rs| - 1], name) then Field(rs[|rs| - 1], "_value")
    else LatestValue(rs[..|rs| - 1], name)
  }

  /** The object transformPerformanceRecords returns. */
  function MetricsOf(rs: seq<Record>): (m: Metrics)
    ensures |m| == |MetricNames|
  {
    seq(|MetricNames|, k requires 0 <= k < |MetricNames| => (MetricNames[k], LatestValue(rs, MetricNames[k])))
  }

  function IndexOfName(name: string): (k: nat)
    requires name in MetricNames
    ensures k < |MetricNames| && MetricNames[k] == name
  {
    var k :| 0 <= k < |MetricNames| && MetricNames[k] == name;
    k
  }

  /** transformPerformanceRecords */
  method TransformPerformanceRecords(records: seq<Record>) returns (metrics: Metrics)
    ensures Keys(metrics) == MetricNames
    ensures metrics == MetricsOf(records)
  {
    metrics := [];
    var n := 0;
    while n < |MetricNames|
      invariant 0 <= n <= |MetricNames|
      invariant |metrics| == n
      invariant forall k :: 0 <= k < n ==> metrics[k] == (MetricNames[k], Some(JNull))
    {
      metrics := metrics + [(MetricNames[n], Some(JNull))];
      n := n + 1;
    }
    MetricNamesDistinct();
    var i := 0;
    while i < |records|
      invariant 0 <= i <= |records|
      invariant |metrics| == |MetricNames|
      invariant forall k :: 0 <= k < |MetricNames| ==> metrics[k] == (MetricNames[k], LatestValue(records[..i], MetricNames[k]))
    {
      var record := records[i];
      assert records[..i + 1][..i] == records[..i];
      var metricName := Field(record, "metricName");
      var isValidMetric := metricName.Some? && metricName.value.JStr? && metricName.value.s in MetricNames;
      var isValueField := IsStr(Field(record, "_field"), "value");
      if isValidMetric && isValueField {
        var k := IndexOfName(metricName.value.s);
        metrics := metrics[k := (metricName.value.s, Field(record, "_value"))];
      }
      i := i + 1;
    }
    assert records[..i] == records;
  }

  /** The value a name ends with is that of the LAST qualifying record. */
  lemma {:induction false} LastQualifyingRecordWins(rs: seq<Record>, name: string, j: nat)
    requires j < |rs| && Qualifies(rs[j], name)
    requires forall l :: j < l < |rs| ==> !Qualifies(rs[l], name)
    ensures LatestValue(rs, name) == Field(rs[j], "_value")
  {
    if j < |rs| - 1 {
      LastQualifyingRecordWins(rs[..|rs| - 1], name, j);
    }
  }

  /** A name no record qualifies for stays null. */
  lemma {:induction false} NoQualifyingRecordIsNull(rs: seq<Record>, name: string)
    requires forall l :: 0 <= l < |rs| ==> !Qualifies(rs[l], name)
    ensures LatestValue(rs, name) == Some(JNull)
  {
    if |rs| > 0 {
      NoQualifyingRecordIsNull(rs[..|rs| - 1], name);
    }
  }

  lemma {:induction false} LatestValueSkips(rs1: seq<Record>, r: Record, rs2: seq<Record>, name: string)
    requires !Qualifies(r, name)
    ensures LatestValue(rs1 + [r] + rs2, name) == LatestValue(rs1 + rs2, name)
    decreases |rs2|
  {
    var xs, ys := rs1 + [r] + rs2, rs1 + rs2;
    if |rs2| == 0 {
      assert xs[..|xs| - 1] == rs1 && ys == rs1;
    } else {
      LatestValueSkips(rs1, r, rs2[..|rs2| - 1], name);
      assert xs[..|xs| - 1] == rs1 + [r] + rs2[..|rs2| - 1];
      assert ys[..|ys| - 1] == rs1 + rs2[..|rs2| - 1];
    }
  }

  /** Only records with a listed `metricName` and `_field === 'value'`
      change the output. */
  lemma NonQualifyingRecordIgnored(rs1: seq<Record>, r: Record, rs2: seq<Record>)
    requires forall name :: name in MetricNames ==> !Qualifies(r, name)
    ensures MetricsOf(rs1 + [r] + rs2) == MetricsOf(rs1 + rs2)
  {
    forall k | 0 <= k < |MetricNames|
      ensures LatestValue(rs1 + [r] + rs2, MetricNames[k]) == LatestValue(rs1 + rs2, MetricNames[k])
    {
      LatestValueSkips(rs1, r, rs2, MetricNames[k]);
    }
  }

  // ---------------------------------------------------------------------
  // isValidMetricsObject, getMissingMetrics

  /** Some value of the object is not null (`undefined` counts as not null). */
  function HasNonNull(m: Metrics): (b: bool)
    ensures b <==> exists i :: 0 <= i < |m| && m[i].1 != Some(JNull)
  {
    if |m| == 0 then false
    else
      var rest := HasNonNull(m[1..]);
      assert forall i :: 1 <= i < |m| ==> m[i] == m[1..][i - 1];
      m[0].1 != Some(JNull) || rest
  }

  /** isValidMetricsObject: `None` stands for null and for every value that
      is not an object. */
  function IsValidMetricsObject(metrics: Option<Metrics>): (b: bool)
    ensures metrics.None? ==> !b
    ensures metrics.Some? ==> (b <==> exists i :: 0 <= i < |metrics.value| && metrics.value[i].1 != Some(JNull))
  {
    match metrics
    case None => false
    case Some(m) => HasNonNull(m)
  }

  /** getMissingMetrics: the keys whose value is null, in key order. */
  function GetMissingMetrics(metrics: Metrics): (missing: seq<string>)
    ensures |missing| <= |metrics|
    ensures forall name :: name in missing <==> exists i :: 0 <= i < |metrics| && metrics[i] == (name, Some(JNull))
  {
    if |metrics| == 0 then []
    else
      var rest := GetMissingMetrics(metrics[1..]);
      assert forall i :: 1 <= i < |metrics| ==> metrics[i] == metrics[1..][i - 1];
      if metrics[0].1 == Some(JNull) then [metrics[0].0] + rest else rest
  }

  /** Every position moved one entry along. */
  function Shift(r: seq<nat>): (s: seq<nat>)
    ensures |s| == |r|
    ensures forall p :: 0 <= p < |r| ==> s[p] == r[p] + 1
  {
    seq(|r|, p requires 0 <= p < |r| => r[p] + 1)
  }

  /** The positions of the null entries, in increasing order. */
  function NullIndices(m: Metrics): seq<nat>
  {
    if |m| == 0 then []
    else if m[0].1 == Some(JNull) then [0] + Shift(NullIndices(m[1..]))
    else Shift(NullIndices(m[1..]))
  }

  /** NullIndices lists null entries only. */
  lemma {:induction false} NullIndicesAreNull(m: Metrics)
    ensures forall p :: 0 <= p < |NullIndices(m)| ==> NullIndices(m)[p] < |m| && m[NullIndices(m)[p]].1 == Some(JNull)
  {
    if |m| > 0 {
      var tail := m[1..];
      NullIndicesAreNull(tail);
      var rest := NullIndices(tail);
      forall p | 0 <= p < |rest| ensures rest[p] + 1 < |m| && m[rest[p] + 1] == tail[rest[p]] { }
    }
  }

  /** NullIndices lists each position once, in increasing order. */
  lemma {:induction false} NullIndicesIncreasing(m: Metrics)
    ensures forall p, q :: 0 <= p < q < |NullIndices(m)| ==> NullIndices(m)[p] < NullIndices(m)[q]
  {
    if |m| > 0 {
      NullIndicesIncreasing(m[1..]);
    }
  }

  /** NullIndices lists every null entry. */
  lemma {:induction false} NullIndicesComplete(m: Metrics)
    ensures forall i :: 0 <= i < |m| && m[i].1 == Some(JNull) ==> i in NullIndices(m)
  {
    if |m| > 0 {
      var tail := m[1..];
      NullIndicesComplete(tail);
      var rest := NullIndices(tail);
      var shifted := Shift(rest);
      forall i | 1 <= i < |m| && m[i].1 == Some(JNull) ensures i in shifted {
        assert tail[i - 1] == m[i];
        var p :| 0 <= p < |rest| && rest[p] == i - 1;
        assert shifted[p] == i;
      }
      if m[0].1 == Some(JNull) {
        var ix := [0] + shifted;
        forall i | 1 <= i < |m| && m[i].1 == Some(JNull) ensures i in ix {
          var p :| 0 <= p < |shifted| && shifted[p] == i;
          assert ix[p + 1] == i;
        }
      }
    }
  }

  /** getMissingMetrics returns exactly the null entries' keys, one per null
      entry, in entry order. */
  lemma {:induction false} MissingAreNullKeys(m: Metrics)
    ensures |GetMissingMetrics(m)| == |NullIndices(m)|
    ensures forall p :: 0 <= p < |NullIndices(m)| ==> NullIndices(m)[p] < |m| && GetMissingMetrics(m)[p] == m[NullIndices(m)[p]].0
  {
    NullIndicesAreNull(m);
    if |m| > 0 {
      var tail := m[1..];
      MissingAreNullKeys(tail);
      var rest := NullIndices(tail);
      forall p | 0 <= p < |rest| ensures m[rest[p] + 1] == tail[rest[p]] { }
    }
  }

  /** The missing keys keep the object's key order: they are the null
      entries' keys, in the order the entries come. */
  lemma {:induction false} MissingInKeyOrder(metrics: Metrics, a: nat, b: nat)
    requires a < b < |metrics| && metrics[a].1 == Some(JNull) && metrics[b].1 == Some(JNull)
    ensures exists p, q :: 0 <= p < q < |GetMissingMetrics(metrics)|
                        && GetMissingMetrics(metrics)[p] == metrics[a].0
                        && GetMissingMetrics(metrics)[q] == metrics[b].0
  {
    var rest := GetMissingMetrics(metrics[1..]);
    if a == 0 {
      assert metrics[1..][b - 1] == metrics[b];
      assert metrics[b].0 in rest;
      var q :| 0 <= q < |rest| && rest[q] == metrics[b].0;
      assert GetMissingMetrics(metrics) == [metrics[0].0] + rest;
      assert GetMissingMetrics(metrics)[0] == metrics[a].0;
      assert GetMissingMetrics(metrics)[q + 1] == metrics[b].0;
    } else {
      assert metrics[1..][a - 1] == metrics[a] && metrics[1..][b - 1] == metrics[b];
      MissingInKeyOrder(metrics[1..], a - 1, b - 1);
      var p, q :| 0 <= p < q < |rest| && rest[p] == metrics[a].0 && rest[q] == metrics[b].0;
      if metrics[0].1 == Some(JNull) {
        assert GetMissingMetrics(metrics) == [metrics[0].0] + rest;
        assert GetMissingMetrics(metrics)[p + 1] == rest[p] && GetMissingMetrics(metrics)[q + 1] == rest[q];
      } else {
        assert GetMissingMetrics(metrics) == rest;
      }
    }
  }

  /** An object is invalid exactly when every one of its keys is missing. */
  lemma {:induction false} InvalidIffAllMissing(metrics: Metrics)
    ensures !IsValidMetricsObject(Some(metrics)) <==> |GetMissingMetrics(metrics)| == |metrics|
  {
    if |metrics| > 0 {
      InvalidIffAllMissing(metrics[1..]);
    }
  }

  /** For the transformer's output, a metric is reported missing when no
      record qualifies for it (a qualifying record whose value is null is
      reported missing too). */
  lemma MissingAfterTransform(rs: seq<Record>, name: string)
    requires name in MetricNames
    requires forall l :: 0 <= l < |rs| ==> !Qualifies(rs[l], name)
    ensures name in GetMissingMetrics(MetricsOf(rs))
  {
    var k := IndexOfName(name);
    NoQualifyingRecordIsNull(rs, name);
    assert MetricsOf(rs)[k] == (name, Some(JNull));
  }

  // ---------------------------------------------------------------------
  // formatMetricsForDisplay

  /** `String(v)`; the text of a number is the parameter `num`, standing
      for Number.prototype.toString. */
  function JsString(v: Value, num: real -> string): string
  {
    match v
    case None => "undefined"
    case Some(j) => JsonString(j, num)
  }

  function JsonString(j: Json, num: real -> string): string
    decreases j, 1
  {
    match j
    case JNull => "null"
    case JBool(b) => if b then "true" else "false"
    case JNum(n) => num(n)
    case JStr(s) => s
    case JArr(items) => JoinItems(items, num)
    case JObj(_) => "[object Object]"
  }

  /** Array-to-string: the items joined with ',', null items as ''. */
  function JoinItems(items: seq<Json>, num: real -> string): string
    decreases items, 0
  {
    if |items| == 0 then ""
    else
      var first := if items[0] == JNull then "" else JsonString(items[0], num);
      if |items| == 1 then first else first + "," + JoinItems(items[1..], num)
  }

  /** The display text of a known metric. */
  function DisplayValue(v: Value, num: real -> string): (s: string)
  {
    if v != Some(JNull) then JsString(v, num) + " ms" else "N/A"
  }

  /** How one entry is shown: a known metric by its display value, any
      other key unchanged. */
  function Shown(e: (string, Value), num: real -> string): Value
  {
    if e.0 in MetricNames then Some(JStr(DisplayValue(e.1, num))) else e.1
  }

  /** formatMetricsForDisplay */
  method FormatMetricsForDisplay(metrics: Metrics, num: real -> string) returns (formatted: Metrics)
    ensures Keys(formatted) == Keys(metrics)
    ensures forall i :: 0 <= i < |metrics| && metrics[i].0 in MetricNames ==>
              formatted[i].1 == Some(JStr(DisplayValue(metrics[i].1, num)))
    ensures forall i :: 0 <= i < |metrics| && metrics[i].0 !in MetricNames ==>
              formatted[i].1 == metrics[i].1
  {
    formatted := [];
    var i := 0;
    while i < |metrics|
      invariant 0 <= i <= |metrics|
      invariant |formatted| == i
      invariant forall k :: 0 <= k < i ==> formatted[k] == (metrics[k].0, Shown(metrics[k], num))
    {
      var (key, value) := metrics[i];
      var shown := if key in MetricNames then Some(JStr(DisplayValue(value, num))) else value;
      assert shown == Shown(metrics[i], num);
      formatted := formatted + [(key, shown)];
      i := i + 1;
    }
  }

  /** A known metric that is null is shown as 'N/A'; any other value of a
      known metric is shown with the unit. */
  lemma DisplayValueCases(v: Value, num: real -> string)
    ensures v == Some(JNull) ==> DisplayValue(v, num) == "N/A"
    ensures v != Some(JNull) ==> DisplayValue(v, num) == JsString(v, num) + " ms"
  {
  }
}
