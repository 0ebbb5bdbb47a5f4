/**
 * The time-series side of the pipeline: the points the results processor
 * builds and the write buffer it hands them to. The database client itself
 * (line protocol, batching, flushing on close) is outside this model; the
 * buffer is an append-only sequence of points together with the default tags
 * it was configured with.
 */
module TimeSeries {
  import opened Js

  /** A field value as the point builder receives it: `floatField` or
      `stringField` with the JavaScript value that was passed. */
  datatype FieldValue = FloatField(f: Json) | StringField(s: Json)

  /** A point: a measurement name, its tags and its fields. A later `tag` or
      field call with the same name replaces the earlier one, so both are maps. */
  datatype Point = Point(measurement: string, tags: map<string, Json>, fields: map<string, FieldValue>)

  function FieldJson(f: FieldValue): Json
  {
    match f
    case FloatField(j) => j
    case StringField(j) => j
  }

  /** The flat records a query returns for one stored point: one record per
      field, carrying every tag (a point's own tag wins over a default tag of
      the same name) and `_measurement`, `_field`, `_value`. */
  function PointRecords(p: Point, defaults: map<string, Json>, fieldOrder: seq<string>): (rs: seq<Record>)
    ensures |rs| == |fieldOrder|
    ensures forall i :: 0 <= i < |fieldOrder| ==>
      && rs[i].Keys == defaults.Keys + p.tags.Keys + {"_measurement", "_field", "_value"}
      && rs[i]["_measurement"] == JStr(p.measurement)
      && rs[i]["_field"] == JStr(fieldOrder[i])
      && (fieldOrder[i] in p.fields ==> rs[i]["_value"] == FieldJson(p.fields[fieldOrder[i]]))
      && (fieldOrder[i] !in p.fields ==> rs[i]["_value"] == JNull)
    ensures forall i, t :: 0 <= i < |fieldOrder| && t in p.tags && t !in {"_measurement", "_field", "_value"} ==>
      t in rs[i] && rs[i][t] == p.tags[t]
  {
    var tags := defaults + p.tags;
    seq(|fieldOrder|, i requires 0 <= i < |fieldOrder| =>
      tags["_measurement" := JStr(p.measurement)]
          ["_field" := JStr(fieldOrder[i])]
          ["_value" := if fieldOrder[i] in p.fields then FieldJson(p.fields[fieldOrder[i]]) else JNull])
  }

  /** The write buffer returned by `getWriteApi()`. */
  class WriteApi {
    var defaultTags: map<string, Json>
    var points: seq<Point>

    constructor ()
      ensures defaultTags == map[] && points == []
    {
      defaultTags := map[];
      points := [];
    }

    /** `useDefaultTags(tags)`: replaces the default tags. */
    method UseDefaultTags(tags: map<string, Json>)
      modifies this
      ensures defaultTags == tags
      ensures points == old(points)
    {
      defaultTags := tags;
    }

    /** `writePoint(p)`: appends one point; nothing written earlier changes. */
    method WritePoint(p: Point)
      modifies this
      ensures points == old(points) + [p]
      ensures defaultTags == old(defaultTags)
    {
      points := points + [p];
    }
  }
}
