/**
 * The relational store for the content breakdown ("pagexray") of each page:
 * the `pagexray_data` table, its insert-or-update write, and the read that
 * re-expands every row into the three flat records (`requests`,
 * `contentSize`, `transferSize`) the report expects from the time-series
 * store.
 *
 * The table is a map from its unique key, taken to be (test_id, group_name,
 * content_type), to the remaining columns. `CURRENT_TIMESTAMP` is the
 * parameter `now`.
 */
module PagexrayDataService {
  import opened Js

  datatype PagexrayKey = PagexrayKey(testId: Json, groupName: Json, contentType: Json)

  datatype PagexrayRow = PagexrayRow(
    url: Json, browser: Json, requests: Json, contentSize: Json, transferSize: Json, createdAt: nat)

  type PagexrayTable = map<PagexrayKey, PagexrayRow>

  /** The arguments of one `savePageXrayData` call; the three counters may be
      `undefined`. */
  datatype PagexraySave = PagexraySave(
    testId: Json, url: Json, groupName: Json, browser: Json, contentType: Json,
    requests: Value, contentSize: Value, transferSize: Value)

  function KeyOf(s: PagexraySave): PagexrayKey
  {
    PagexrayKey(s.testId, s.groupName, s.contentType)
  }

  /** `v || 0`: a falsy counter (undefined, null, 0, '', NaN-free falsy
      values) is stored as 0. */
  function Counter(v: Value): (j: Json)
    ensures !Truthy(v) ==> j == JNum(0.0)
    ensures Truthy(v) ==> Some(j) == v
  {
    OrDefault(v, JNum(0.0))
  }

  /** `INSERT ... ON DUPLICATE KEY UPDATE requests, content_size,
      transfer_size, created_at`: a new key gets a full row; an existing key
      keeps its `url` and `browser`; every other row is untouched. */
  function UpsertPagexray(t: PagexrayTable, s: PagexraySave, now: nat): (t': PagexrayTable)
    ensures t'.Keys == t.Keys + {KeyOf(s)}
    ensures forall k :: k in t && k != KeyOf(s) ==> t'[k] == t[k]
    ensures t'[KeyOf(s)].requests == Counter(s.requests)
    ensures t'[KeyOf(s)].contentSize == Counter(s.contentSize)
    ensures t'[KeyOf(s)].transferSize == Counter(s.transferSize)
    ensures t'[KeyOf(s)].createdAt == now
    ensures KeyOf(s) in t ==> t'[KeyOf(s)].url == t[KeyOf(s)].url && t'[KeyOf(s)].browser == t[KeyOf(s)].browser
    ensures KeyOf(s) !in t ==> t'[KeyOf(s)].url == s.url && t'[KeyOf(s)].browser == s.browser
  {
    var k := KeyOf(s);
    var requests, contentSize, transferSize := Counter(s.requests), Counter(s.contentSize), Counter(s.transferSize);
    if k in t then
      t[k := t[k].(requests := requests, contentSize := contentSize, transferSize := transferSize, createdAt := now)]
    else
      t[k := PagexrayRow(s.url, s.browser, requests, contentSize, transferSize, now)]
  }

  /** Two tables that differ at most in their timestamps. */
  predicate SameUpToTime(t1: PagexrayTable, t2: PagexrayTable)
  {
    && t1.Keys == t2.Keys
    && forall k :: k in t1 ==> t1[k].(createdAt := 0) == t2[k].(createdAt := 0)
  }

  /** Saving the same arguments twice leaves what saving them once leaves,
      with the later timestamp; no second row appears. */
  lemma SaveTwiceIsSaveOnce(t: PagexrayTable, s: PagexraySave, now1: nat, now2: nat)
    ensures UpsertPagexray(UpsertPagexray(t, s, now1), s, now2) == UpsertPagexray(t, s, now2)
    ensures SameUpToTime(UpsertPagexray(UpsertPagexray(t, s, now1), s, now2), UpsertPagexray(t, s, now1))
  {
    var once := UpsertPagexray(t, s, now2);
    var twice := UpsertPagexray(UpsertPagexray(t, s, now1), s, now2);
    assert twice.Keys == once.Keys;
    assert forall k :: k in once ==> twice[k] == once[k];
  }

  /** A sequence of saves, applied in order with one clock reading. */
  function ApplyPagexraySaves(t: PagexrayTable, ss: seq<PagexraySave>, now: nat): PagexrayTable
  {
    if |ss| == 0 then t else UpsertPagexray(ApplyPagexraySaves(t, ss[..|ss| - 1], now), ss[|ss| - 1], now)
  }

  /** Applying two runs of saves one after the other. */
  lemma {:induction false} ApplyPagexraySavesAppend(t: PagexrayTable, a: seq<PagexraySave>, b: seq<PagexraySave>, now: nat)
    ensures ApplyPagexraySaves(t, a + b, now) == ApplyPagexraySaves(ApplyPagexraySaves(t, a, now), b, now)
  {
    if |b| == 0 {
      assert a + b == a;
    } else {
      assert (a + b)[..|a + b| - 1] == a + b[..|b| - 1];
      ApplyPagexraySavesAppend(t, a, b[..|b| - 1], now);
    }
  }

  /** The first and the last save in `ss` for the key `k`. */
  function FirstSaveFor(ss: seq<PagexraySave>, k: PagexrayKey): (r: Option<PagexraySave>)
    ensures r.Some? <==> exists i :: 0 <= i < |ss| && KeyOf(ss[i]) == k
    ensures r.Some? ==> KeyOf(r.value) == k
  {
    if |ss| == 0 then None
    else if KeyOf(ss[0]) == k then Some(ss[0])
    else
      var r := FirstSaveFor(ss[1..], k);
      assert forall i :: 1 <= i < |ss| ==> ss[i] == ss[1..][i - 1];
      r
  }

  function LastSaveFor(ss: seq<PagexraySave>, k: PagexrayKey): (r: Option<PagexraySave>)
    ensures r.Some? <==> exists i :: 0 <= i < |ss| && KeyOf(ss[i]) == k
    ensures r.Some? ==> KeyOf(r.value) == k
  {
    if |ss| == 0 then None
    else if KeyOf(ss[|ss| - 1]) == k then Some(ss[|ss| - 1])
    else
      var r := LastSaveFor(ss[..|ss| - 1], k);
      assert forall i :: 0 <= i < |ss| - 1 ==> ss[i] == ss[..|ss| - 1][i];
      r
  }

  lemma {:induction false} FirstSaveForPrefix(ss: seq<PagexraySave>, k: PagexrayKey)
    requires |ss| > 0 && FirstSaveFor(ss[..|ss| - 1], k).Some?
    ensures FirstSaveFor(ss, k) == FirstSaveFor(ss[..|ss| - 1], k)
  {
    if KeyOf(ss[0]) != k {
      assert ss[1..][..|ss[1..]| - 1] == ss[..|ss| - 1][1..];
      FirstSaveForPrefix(ss[1..], k);
    }
  }

  lemma {:induction false} FirstSaveForLast(ss: seq<PagexraySave>, k: PagexrayKey)
    requires |ss| > 0 && FirstSaveFor(ss[..|ss| - 1], k).None? && KeyOf(ss[|ss| - 1]) == k
    ensures FirstSaveFor(ss, k) == Some(ss[|ss| - 1])
  {
    if KeyOf(ss[0]) != k {
      assert ss[1..][..|ss[1..]| - 1] == ss[..|ss| - 1][1..];
      FirstSaveForLast(ss[1..], k);
    }
  }

  /** What a sequence of saves leaves in the row for `k`: the key is present
      iff it was before or some save names it; its url and browser are the
      ones first stored; the counters come from the last save. */
  lemma {:induction false} ApplyPagexraySavesAt(t: PagexrayTable, ss: seq<PagexraySave>, now: nat, k: PagexrayKey)
    ensures k in ApplyPagexraySaves(t, ss, now) <==> k in t || LastSaveFor(ss, k).Some?
    ensures LastSaveFor(ss, k).None? && k in t ==> ApplyPagexraySaves(t, ss, now)[k] == t[k]
    ensures LastSaveFor(ss, k).Some? ==>
      var last := LastSaveFor(ss, k).value;
      var first := if k in t then (t[k].url, t[k].browser) else (FirstSaveFor(ss, k).value.url, FirstSaveFor(ss, k).value.browser);
      ApplyPagexraySaves(t, ss, now)[k] ==
        PagexrayRow(first.0, first.1, Counter(last.requests), Counter(last.contentSize), Counter(last.transferSize), now)
  {
    if |ss| > 0 {
      var init := ss[..|ss| - 1];
      ApplyPagexraySavesAt(t, init, now, k);
      if KeyOf(ss[|ss| - 1]) != k {
        assert LastSaveFor(ss, k) == LastSaveFor(init, k);
        if LastSaveFor(init, k).Some? {
          FirstSaveForPrefix(ss, k);
        }
      } else if LastSaveFor(init, k).Some? {
        FirstSaveForPrefix(ss, k);
      } else {
        FirstSaveForLast(ss, k);
      }
    }
  }

  /** Re-running the same saves leaves what running them once leaves, with
      the later timestamp: no duplicate rows, no double-applied update. */
  lemma ReplayIsIdempotent(t: PagexrayTable, ss: seq<PagexraySave>, now1: nat, now2: nat)
    ensures ApplyPagexraySaves(ApplyPagexraySaves(t, ss, now1), ss, now2) == ApplyPagexraySaves(t, ss, now2)
  {
    var t1 := ApplyPagexraySaves(t, ss, now1);
    var twice := ApplyPagexraySaves(t1, ss, now2);
    var once := ApplyPagexraySaves(t, ss, now2);
    forall k | true
      ensures k in twice <==> k in once
      ensures k in once ==> twice[k] == once[k]
    {
      ApplyPagexraySavesAt(t, ss, now1, k);
      ApplyPagexraySavesAt(t1, ss, now2, k);
      ApplyPagexraySavesAt(t, ss, now2, k);
    }
    assert twice.Keys == once.Keys;
  }

  // ---------------------------------------------------------------------
  // Read-back: three records per row

  const FieldNames: seq<string> := ["requests", "contentSize", "transferSize"]

  const PagexrayRecordKeys: set<string> :=
    {"test_id", "url", "group", "browser", "contentType", "_measurement", "_field", "_value", "_time"}

  /** The column behind the `j`-th record of a row. */
  function Column(row: PagexrayRow, j: nat): Json
    requires j < 3
  {
    if j == 0 then row.requests else if j == 1 then row.contentSize else row.transferSize
  }

  /** The `j`-th record built from one row. */
  function FieldRecord(k: PagexrayKey, row: PagexrayRow, j: nat): (r: Record)
    requires j < 3
    ensures r.Keys == PagexrayRecordKeys
  {
    map["test_id" := k.testId, "url" := row.url, "group" := k.groupName, "browser" := row.browser,
        "contentType" := k.contentType, "_measurement" := JStr("pagexray"),
        "_field" := JStr(FieldNames[j]), "_value" := Column(row, j), "_time" := TimeJson(row.createdAt)]
  }

  /** The three records of one row, in the order they are pushed. */
  function RowRecords(kr: (PagexrayKey, PagexrayRow)): (rs: seq<Record>)
    ensures |rs| == 3
    ensures forall j :: 0 <= j < 3 ==> rs[j] == FieldRecord(kr.0, kr.1, j)
  {
    [FieldRecord(kr.0, kr.1, 0), FieldRecord(kr.0, kr.1, 1), FieldRecord(kr.0, kr.1, 2)]
  }

  /** The lists `f` gives for each element, concatenated in order. */
  function Flat<X, T>(f: X -> seq<T>, xs: seq<X>): seq<T>
  {
    if |xs| == 0 then [] else f(xs[0]) + Flat(f, xs[1..])
  }

  lemma {:induction false} FlatLength<X, T>(f: X -> seq<T>, xs: seq<X>, n: nat)
    requires forall x :: |f(x)| == n
    ensures |Flat(f, xs)| == n * |xs|
  {
    if |xs| > 0 {
      FlatLength(f, xs[1..], n);
    }
  }

  lemma {:induction false} FlatAppend<X, T>(f: X -> seq<T>, a: seq<X>, b: seq<X>)
    ensures Flat(f, a + b) == Flat(f, a) + Flat(f, b)
  {
    if |a| > 0 {
      assert (a + b)[0] == a[0];
      assert (a + b)[1..] == a[1..] + b;
      FlatAppend(f, a[1..], b);
    } else {
      assert a + b == b;
    }
  }

  lemma FlatSnoc<X, T>(f: X -> seq<T>, xs: seq<X>, i: nat)
    requires i < |xs|
    ensures Flat(f, xs[..i + 1]) == Flat(f, xs[..i]) + f(xs[i])
  {
    FlatAppend(f, xs[..i], [xs[i]]);
    assert [xs[i]][1..] == [];
    assert Flat(f, [xs[i]]) == f(xs[i]) + [];
    assert xs[..i + 1] == xs[..i] + [xs[i]];
  }

  /** With `n` items per element, item `n * i + j` is item `j` of element `i`. */
  lemma {:induction false} FlatAt<X, T>(f: X -> seq<T>, xs: seq<X>, n: nat, i: nat, j: nat)
    requires forall x :: |f(x)| == n
    requires i < |xs| && j < n
    ensures n * i + j < |Flat(f, xs)| && Flat(f, xs)[n * i + j] == f(xs[i])[j]
  {
    FlatLength(f, xs, n);
    FlatLength(f, xs[1..], n);
    if i > 0 {
      FlatAt(f, xs[1..], n, i - 1, j);
      assert n * i + j == n + (n * (i - 1) + j);
    }
  }

  /** The first `n` items come from the first element, the rest from the
      others. */
  lemma FlatCons<X, T>(f: X -> seq<T>, xs: seq<X>, n: nat)
    requires forall x :: |f(x)| == n
    requires |xs| > 0
    ensures n <= |Flat(f, xs)| && Flat(f, xs)[..n] == f(xs[0]) && Flat(f, xs)[n..] == Flat(f, xs[1..])
  {
  }

  /** The records `getPageXrayDataByTestId` builds from `rows`. */
  function Expand(rows: seq<(PagexrayKey, PagexrayRow)>): (rs: seq<Record>)
    ensures |rs| == 3 * |rows|
  {
    FlatLength(RowRecords, rows, 3);
    Flat(RowRecords, rows)
  }

  /** Record `3 * i + j` is field `j` of row `i`: the records come in row
      order, each row as `requests`, `contentSize`, `transferSize`. */
  lemma ExpandAt(rows: seq<(PagexrayKey, PagexrayRow)>, i: nat, j: nat)
    requires i < |rows| && j < 3
    ensures Expand(rows)[3 * i + j] == FieldRecord(rows[i].0, rows[i].1, j)
  {
    FlatAt(RowRecords, rows, 3, i, j);
  }

  /** The three records of a row differ only in `_field` and `_value`, so
      they share every tag column and the timestamp; all carry
      `_measurement = 'pagexray'`; and their values are `requests`,
      `content_size` and `transfer_size` in that order. */
  lemma FieldRecordsShare(k: PagexrayKey, row: PagexrayRow)
    ensures forall j :: 0 <= j < 3 ==>
      FieldRecord(k, row, j) == FieldRecord(k, row, 0)["_field" := JStr(FieldNames[j])]["_value" := Column(row, j)]
    ensures forall j :: 0 <= j < 3 ==> FieldRecord(k, row, j)["_measurement"] == JStr("pagexray")
    ensures FieldRecord(k, row, 0)["_field"] == JStr("requests") && FieldRecord(k, row, 0)["_value"] == row.requests
    ensures FieldRecord(k, row, 1)["_field"] == JStr("contentSize") && FieldRecord(k, row, 1)["_value"] == row.contentSize
    ensures FieldRecord(k, row, 2)["_field"] == JStr("transferSize") && FieldRecord(k, row, 2)["_value"] == row.transferSize
  {
    forall j | 0 <= j < 3
      ensures FieldRecord(k, row, j) == FieldRecord(k, row, 0)["_field" := JStr(FieldNames[j])]["_value" := Column(row, j)]
    {
      var r, r0 := FieldRecord(k, row, j), FieldRecord(k, row, 0)["_field" := JStr(FieldNames[j])]["_value" := Column(row, j)];
      assert r.Keys == r0.Keys;
      assert forall c :: c in r ==> r[c] == r0[c];
    }
  }

  /** The row three consecutive records were built from, if they were. */
  function RowOfTriple(a: Record, b: Record, c: Record): Option<(PagexrayKey, PagexrayRow)>
  {
    if && PagexrayRecordKeys <= a.Keys && PagexrayRecordKeys <= b.Keys && PagexrayRecordKeys <= c.Keys
       && a["_field"] == JStr("requests") && b["_field"] == JStr("contentSize") && c["_field"] == JStr("transferSize")
       && TimeValue(a["_time"]).Some?
    then
      Some((PagexrayKey(a["test_id"], a["group"], a["contentType"]),
            PagexrayRow(a["url"], a["browser"], a["_value"], b["_value"], c["_value"], TimeValue(a["_time"]).value)))
    else None
  }

  /** Reads a flat list back three items at a time with `g`. */
  function Unflat<X, T>(g: (T, T, T) -> Option<X>, rs: seq<T>): Option<seq<X>>
  {
    if |rs| == 0 then Some([])
    else if |rs| < 3 then None
    else
      match g(rs[0], rs[1], rs[2])
      case None => None
      case Some(x) =>
        match Unflat(g, rs[3..])
        case None => None
        case Some(rest) => Some([x] + rest)
  }

  /** Reading back what `f` flattened gives the elements back when `g`
      undoes `f` on each. */
  lemma {:induction false} UnflatFlat<X, T>(f: X -> seq<T>, g: (T, T, T) -> Option<X>, xs: seq<X>)
    requires forall x :: |f(x)| == 3
    requires forall x :: g(f(x)[0], f(x)[1], f(x)[2]) == Some(x)
    ensures Unflat(g, Flat(f, xs)) == Some(xs)
  {
    if |xs| > 0 {
      var rs := Flat(f, xs);
      FlatCons(f, xs, 3);
      assert rs[0] == f(xs[0])[0] && rs[1] == f(xs[0])[1] && rs[2] == f(xs[0])[2];
      UnflatFlat(f, g, xs[1..]);
      assert [xs[0]] + xs[1..] == xs;
    }
  }

  /** Reads flat records back into rows, three at a time. */
  function Regroup(rs: seq<Record>): Option<seq<(PagexrayKey, PagexrayRow)>>
  {
    Unflat(RowOfTriple, rs)
  }

  /** The three records of a row give the row back. */
  lemma RowOfTripleInverts(kr: (PagexrayKey, PagexrayRow))
    ensures var t := RowRecords(kr); RowOfTriple(t[0], t[1], t[2]) == Some(kr)
  {
  }

  /** The expansion loses nothing: the rows are recovered from the records. */
  lemma RegroupExpand(rows: seq<(PagexrayKey, PagexrayRow)>)
    ensures Regroup(Expand(rows)) == Some(rows)
  {
    forall kr: (PagexrayKey, PagexrayRow)
      ensures RowOfTriple(RowRecords(kr)[0], RowRecords(kr)[1], RowRecords(kr)[2]) == Some(kr)
    {
      RowOfTripleInverts(kr);
    }
    UnflatFlat(RowRecords, RowOfTriple, rows);
  }

  // ---------------------------------------------------------------------
  // The store

  class PagexrayStore {
    var rows: PagexrayTable

    constructor ()
      ensures rows == map[]
    {
      rows := map[];
    }

    /** `savePageXrayData(testRunId, url, groupName, browser, contentType,
        requests, contentSize, transferSize)`. */
    method SavePageXrayData(testRunId: Json, url: Json, groupName: Json, browser: Json, contentType: Json,
                            requests: Value, contentSize: Value, transferSize: Value, now: nat)
      modifies this
      ensures rows == UpsertPagexray(old(rows),
        PagexraySave(testRunId, url, groupName, browser, contentType, requests, contentSize, transferSize), now)
    {
      var key := PagexrayKey(testRunId, groupName, contentType);
      var r := OrDefault(requests, JNum(0.0));
      var cs := OrDefault(contentSize, JNum(0.0));
      var ts := OrDefault(transferSize, JNum(0.0));
      if key in rows {
        var row := rows[key];
        rows := rows[key := row.(requests := r, contentSize := cs, transferSize := ts, createdAt := now)];
      } else {
        rows := rows[key := PagexrayRow(url, browser, r, cs, ts, now)];
      }
    }

    /** `SELECT ... FROM pagexray_data WHERE test_id = ?`: every row of the
        test exactly once. */
    method SelectByTestId(testId: Json) returns (selected: seq<(PagexrayKey, PagexrayRow)>)
      ensures forall i :: 0 <= i < |selected| ==>
        selected[i].0 in rows && selected[i].0.testId == testId && rows[selected[i].0] == selected[i].1
      ensures forall k :: k in rows && k.testId == testId ==> exists i :: 0 <= i < |selected| && selected[i].0 == k
      ensures forall i, j :: 0 <= i < j < |selected| ==> selected[i].0 != selected[j].0
    {
      var remaining := set k | k in rows && k.testId == testId;
      selected := [];
      while remaining != {}
        invariant remaining <= rows.Keys
        invariant forall k :: k in remaining ==> k.testId == testId
        invariant forall i :: 0 <= i < |selected| ==>
          selected[i].0 in rows && selected[i].0.testId == testId && rows[selected[i].0] == selected[i].1
          && selected[i].0 !in remaining
        invariant forall k :: k in rows && k.testId == testId ==>
          k in remaining || exists i :: 0 <= i < |selected| && selected[i].0 == k
        invariant forall i, j :: 0 <= i < j < |selected| ==> selected[i].0 != selected[j].0
        decreases |remaining|
      {
        var k :| k in remaining;
        ghost var before := selected;
        selected := selected + [(k, rows[k])];
        assert forall i :: 0 <= i < |before| ==> selected[i] == before[i];
        assert selected[|before|].0 == k;
        remaining := remaining - {k};
      }
    }

    /** `getPageXrayDataByTestId(testId)`: the records of all the test's rows,
        three per row; grouping them back by three yields rows of the table,
        each of the test's rows exactly once. */
    method GetPageXrayDataByTestId(testId: Json) returns (records: seq<Record>)
      ensures Regroup(records).Some?
      ensures records == Expand(Regroup(records).value)
      ensures var back := Regroup(records).value;
        && (forall i :: 0 <= i < |back| ==> back[i].0 in rows && back[i].0.testId == testId && rows[back[i].0] == back[i].1)
        && (forall k :: k in rows && k.testId == testId ==> exists i :: 0 <= i < |back| && back[i].0 == k)
        && (forall i, j :: 0 <= i < j < |back| ==> back[i].0 != back[j].0)
    {
      var selected := SelectByTestId(testId);
      records := ExpandRows(selected);
      RegroupExpand(selected);
    }
  }

  /** `rows.forEach(row => { push three records })`. */
  method ExpandRows(rows: seq<(PagexrayKey, PagexrayRow)>) returns (transformed: seq<Record>)
    ensures transformed == Expand(rows)
  {
    transformed := [];
    var i := 0;
    while i < |rows|
      invariant 0 <= i <= |rows|
      invariant transformed == Expand(rows[..i])
    {
      var k, row := rows[i].0, rows[i].1;
      ghost var before := transformed;
      transformed := transformed + [FieldRecord(k, row, 0)];
      transformed := transformed + [FieldRecord(k, row, 1)];
      transformed := transformed + [FieldRecord(k, row, 2)];
      assert transformed == before + RowRecords(rows[i]);
      FlatSnoc(RowRecords, rows, i);
      i := i + 1;
    }
    assert rows[..i] == rows;
  }
}
