/**
 * The relational store for the advisory ("coach") results: the
 * `coach_advice`, `test_runs` and `coach_scores` tables, their
 * insert-or-update writes and the reads that reshape rows into the flat
 * records and summary objects the report consumes.
 *
 * A table is a map from its unique key to the remaining columns. The key of
 * `coach_advice` is taken to be (test_id, group_name, category_name,
 * advice_id); `test_runs` and `coach_scores` are keyed by `test_id`.
 * `CURRENT_TIMESTAMP` is the parameter `now`.
 */
module CoachDataService {
  import opened Js

  // ---------------------------------------------------------------------
  // coach_advice

  datatype AdviceKey = AdviceKey(testId: Json, groupName: Json, categoryName: Json, adviceId: Json)

  datatype AdviceRow = AdviceRow(url: Json, score: Json, title: Json, description: Json, createdAt: nat)

  type AdviceTable = map<AdviceKey, AdviceRow>

  /** The arguments of one `saveCoachData` call. */
  datatype AdviceSave = AdviceSave(
    testId: Json, url: Json, groupName: Json, categoryName: Json,
    adviceId: Json, score: Json, title: Json, description: Json)

  function KeyOf(s: AdviceSave): AdviceKey
  {
    AdviceKey(s.testId, s.groupName, s.categoryName, s.adviceId)
  }

  /** `INSERT ... ON DUPLICATE KEY UPDATE score, title, description,
      created_at`: a new key gets a full row; an existing key keeps its `url`
      and has only the listed columns replaced; every other row is untouched. */
  function UpsertAdvice(t: AdviceTable, s: AdviceSave, now: nat): (t': AdviceTable)
    ensures t'.Keys == t.Keys + {KeyOf(s)}
    ensures forall k :: k in t && k != KeyOf(s) ==> t'[k] == t[k]
    ensures t'[KeyOf(s)].score == s.score && t'[KeyOf(s)].title == s.title
    ensures t'[KeyOf(s)].description == s.description && t'[KeyOf(s)].createdAt == now
    ensures KeyOf(s) in t ==> t'[KeyOf(s)].url == t[KeyOf(s)].url
    ensures KeyOf(s) !in t ==> t'[KeyOf(s)].url == s.url
  {
    var k := KeyOf(s);
    if k in t then t[k := t[k].(score := s.score, title := s.title, description := s.description, createdAt := now)]
    else t[k := AdviceRow(s.url, s.score, s.title, s.description, now)]
  }

  /** Two tables that differ at most in their timestamps. */
  predicate SameUpToTime(t1: AdviceTable, t2: AdviceTable)
  {
    && t1.Keys == t2.Keys
    && forall k :: k in t1 ==> t1[k].(createdAt := 0) == t2[k].(createdAt := 0)
  }

  /** Saving the same arguments twice leaves what saving them once leaves,
      with the later timestamp; in particular no second row appears. */
  lemma SaveTwiceIsSaveOnce(t: AdviceTable, s: AdviceSave, now1: nat, now2: nat)
    ensures UpsertAdvice(UpsertAdvice(t, s, now1), s, now2) == UpsertAdvice(t, s, now2)
    ensures SameUpToTime(UpsertAdvice(UpsertAdvice(t, s, now1), s, now2), UpsertAdvice(t, s, now1))
  {
    var once := UpsertAdvice(t, s, now2);
    var twice := UpsertAdvice(UpsertAdvice(t, s, now1), s, now2);
    assert twice.Keys == once.Keys;
    assert forall k :: k in once ==> twice[k] == once[k];
  }

  /** A sequence of saves, applied in order with one clock reading. */
  function ApplyAdviceSaves(t: AdviceTable, ss: seq<AdviceSave>, now: nat): AdviceTable
  {
    if |ss| == 0 then t else UpsertAdvice(ApplyAdviceSaves(t, ss[..|ss| - 1], now), ss[|ss| - 1], now)
  }

  /** Applying two runs of saves one after the other. */
  lemma {:induction false} ApplyAdviceSavesAppend(t: AdviceTable, a: seq<AdviceSave>, b: seq<AdviceSave>, now: nat)
    ensures ApplyAdviceSaves(t, a + b, now) == ApplyAdviceSaves(ApplyAdviceSaves(t, a, now), b, now)
  {
    if |b| == 0 {
      assert a + b == a;
    } else {
      assert (a + b)[..|a + b| - 1] == a + b[..|b| - 1];
      ApplyAdviceSavesAppend(t, a, b[..|b| - 1], now);
    }
  }

  /** The first and the last save in `ss` for the key `k`. */
  function FirstSaveFor(ss: seq<AdviceSave>, k: AdviceKey): (r: Option<AdviceSave>)
    ensures r.Some? <==> exists i :: 0 <= i < |ss| && KeyOf(ss[i]) == k
    ensures r.Some? ==> KeyOf(r.value) == k
  {
    if |ss| == 0 then None
    else if KeyOf(ss[0]) == k then Some(ss[0])
    else
      var r := FirstSaveFor(ss[1..], k);
      assert forall i :: 1 <= i < |ss| ==> ss[i] == ss[1..][i - 1];
      r
  }

  function LastSaveFor(ss: seq<AdviceSave>, k: AdviceKey): (r: Option<AdviceSave>)
    ensures r.Some? <==> exists i :: 0 <= i < |ss| && KeyOf(ss[i]) == k
    ensures r.Some? ==> KeyOf(r.value) == k
  {
    if |ss| == 0 then None
    else if KeyOf(ss[|ss| - 1]) == k then Some(ss[|ss| - 1])
    else
      var r := LastSaveFor(ss[..|ss| - 1], k);
      assert forall i :: 0 <= i < |ss| - 1 ==> ss[i] == ss[..|ss| - 1][i];
      r
  }

  lemma {:induction false} FirstSaveForPrefix(ss: seq<AdviceSave>, k: AdviceKey)
    requires |ss| > 0 && FirstSaveFor(ss[..|ss| - 1], k).Some?
    ensures FirstSaveFor(ss, k) == FirstSaveFor(ss[..|ss| - 1], k)
  {
    if KeyOf(ss[0]) != k {
      assert ss[1..][..|ss[1..]| - 1] == ss[..|ss| - 1][1..];
      FirstSaveForPrefix(ss[1..], k);
    }
  }

  lemma {:induction false} FirstSaveForLast(ss: seq<AdviceSave>, k: AdviceKey)
    requires |ss| > 0 && FirstSaveFor(ss[..|ss| - 1], k).None? && KeyOf(ss[|ss| - 1]) == k
    ensures FirstSaveFor(ss, k) == Some(ss[|ss| - 1])
  {
    if KeyOf(ss[0]) != k {
      assert ss[1..][..|ss[1..]| - 1] == ss[..|ss| - 1][1..];
      FirstSaveForLast(ss[1..], k);
    }
  }

  /** What a sequence of saves leaves in the row for `k`: the key is present
      iff it was before or some save names it; its url is the one first
      stored; score, title and description come from the last save. */
  lemma {:induction false} ApplyAdviceSavesAt(t: AdviceTable, ss: seq<AdviceSave>, now: nat, k: AdviceKey)
    ensures k in ApplyAdviceSaves(t, ss, now) <==> k in t || LastSaveFor(ss, k).Some?
    ensures LastSaveFor(ss, k).None? && k in t ==> ApplyAdviceSaves(t, ss, now)[k] == t[k]
    ensures LastSaveFor(ss, k).Some? ==>
      var last := LastSaveFor(ss, k).value;
      ApplyAdviceSaves(t, ss, now)[k] ==
        AdviceRow(if k in t then t[k].url else FirstSaveFor(ss, k).value.url,
                  last.score, last.title, last.description, now)
  {
    if |ss| > 0 {
      var init := ss[..|ss| - 1];
      ApplyAdviceSavesAt(t, init, now, k);
      if KeyOf(ss[|ss| - 1]) != k {
        assert LastSaveFor(ss, k) == LastSaveFor(init, k);
        if LastSaveFor(init, k).Some? {
          FirstSaveForPrefix(ss, k);
        }
      } else if LastSaveFor(init, k).Some? {
        FirstSaveForPrefix(ss, k);
      } else {
        FirstSaveForLast(ss, k);
      }
    }
  }

  /** Re-running the same saves changes nothing but the timestamps: replaying
      a run's writes is idempotent. */
  lemma ReplayIsIdempotent(t: AdviceTable, ss: seq<AdviceSave>, now1: nat, now2: nat)
    ensures ApplyAdviceSaves(ApplyAdviceSaves(t, ss, now1), ss, now2) == ApplyAdviceSaves(t, ss, now2)
  {
    var t1 := ApplyAdviceSaves(t, ss, now1);
    var twice := ApplyAdviceSaves(t1, ss, now2);
    var once := ApplyAdviceSaves(t, ss, now2);
    forall k | true
      ensures k in twice <==> k in once
      ensures k in once ==> twice[k] == once[k]
    {
      ApplyAdviceSavesAt(t, ss, now1, k);
      ApplyAdviceSavesAt(t1, ss, now2, k);
      ApplyAdviceSavesAt(t, ss, now2, k);
    }
    assert twice.Keys == once.Keys;
  }

  // ---------------------------------------------------------------------
  // test_runs and coach_scores

  datatype TestRunRow = TestRunRow(browser: Json, createdAt: nat)

  /** `INSERT INTO test_runs ... ON DUPLICATE KEY UPDATE browser, created_at`:
      the only non-key columns are both replaced, so old and new rows alike
      end as (browser, now). */
  function UpsertTestRun(t: map<Json, TestRunRow>, testId: Json, browser: Json, now: nat): (t': map<Json, TestRunRow>)
    ensures t'.Keys == t.Keys + {testId}
    ensures forall id :: id in t && id != testId ==> t'[id] == t[id]
    ensures t'[testId].browser == browser && t'[testId].createdAt == now
  {
    t[testId := TestRunRow(browser, now)]
  }

  /** A stored category score; SQL NULL is `JNull`. */
  datatype ScoresRow = ScoresRow(performance: Json, privacy: Json, bestpractice: Json, createdAt: nat)

  /** The `scores` argument of `saveCoachScores`: its three properties. */
  datatype ScoresArg = ScoresArg(performance: Value, privacy: Value, bestpractice: Value)

  /** `score || null`: a falsy score (0, '', false, null, undefined) is stored as NULL. */
  function StoredScore(v: Value): (j: Json)
    ensures !Truthy(v) ==> j == JNull
    ensures Truthy(v) ==> Some(j) == v
  {
    OrDefault(v, JNull)
  }

  /** `INSERT INTO coach_scores ... ON DUPLICATE KEY UPDATE` all three scores
      and created_at. */
  function UpsertScores(t: map<Json, ScoresRow>, testId: Json, s: ScoresArg, now: nat): (t': map<Json, ScoresRow>)
    ensures t'.Keys == t.Keys + {testId}
    ensures forall id :: id in t && id != testId ==> t'[id] == t[id]
    ensures t'[testId].createdAt == now
    ensures Truthy(s.performance) ==> Some(t'[testId].performance) == s.performance
    ensures !Truthy(s.performance) ==> t'[testId].performance == JNull
    ensures Truthy(s.privacy) ==> Some(t'[testId].privacy) == s.privacy
    ensures !Truthy(s.privacy) ==> t'[testId].privacy == JNull
    ensures Truthy(s.bestpractice) ==> Some(t'[testId].bestpractice) == s.bestpractice
    ensures !Truthy(s.bestpractice) ==> t'[testId].bestpractice == JNull
  {
    t[testId := ScoresRow(StoredScore(s.performance), StoredScore(s.privacy), StoredScore(s.bestpractice), now)]
  }

  /** A sequence of `saveCoachScores` calls, applied in order. */
  function ApplyScoreSaves(t: map<Json, ScoresRow>, ss: seq<(Json, ScoresArg)>, now: nat): map<Json, ScoresRow>
  {
    if |ss| == 0 then t else UpsertScores(ApplyScoreSaves(t, ss[..|ss| - 1], now), ss[|ss| - 1].0, ss[|ss| - 1].1, now)
  }

  lemma {:induction false} ApplyScoreSavesAppend(t: map<Json, ScoresRow>, a: seq<(Json, ScoresArg)>, b: seq<(Json, ScoresArg)>, now: nat)
    ensures ApplyScoreSaves(t, a + b, now) == ApplyScoreSaves(ApplyScoreSaves(t, a, now), b, now)
  {
    if |b| == 0 {
      assert a + b == a;
    } else {
      assert (a + b)[..|a + b| - 1] == a + b[..|b| - 1];
      ApplyScoreSavesAppend(t, a, b[..|b| - 1], now);
    }
  }

  /** The last `saveCoachScores` call in `ss` for the run `id`. */
  function LastScoresFor(ss: seq<(Json, ScoresArg)>, id: Json): (r: Option<ScoresArg>)
    ensures r.Some? <==> exists i :: 0 <= i < |ss| && ss[i].0 == id
  {
    if |ss| == 0 then None
    else if ss[|ss| - 1].0 == id then Some(ss[|ss| - 1].1)
    else
      var r := LastScoresFor(ss[..|ss| - 1], id);
      assert forall i :: 0 <= i < |ss| - 1 ==> ss[i] == ss[..|ss| - 1][i];
      r
  }

  /** What a sequence of score saves leaves for the run `id`: present iff it
      was before or some call names it, and then the last call's scores. */
  lemma {:induction false} ApplyScoreSavesAt(t: map<Json, ScoresRow>, ss: seq<(Json, ScoresArg)>, now: nat, id: Json)
    ensures id in ApplyScoreSaves(t, ss, now) <==> id in t || LastScoresFor(ss, id).Some?
    ensures LastScoresFor(ss, id).None? && id in t ==> ApplyScoreSaves(t, ss, now)[id] == t[id]
    ensures LastScoresFor(ss, id).Some? ==>
      var last := LastScoresFor(ss, id).value;
      ApplyScoreSaves(t, ss, now)[id] ==
        ScoresRow(StoredScore(last.performance), StoredScore(last.privacy), StoredScore(last.bestpractice), now)
  {
    if |ss| > 0 {
      ApplyScoreSavesAt(t, ss[..|ss| - 1], now, id);
    }
  }

  /** Re-running the same score saves leaves what running them once leaves. */
  lemma ScoreReplayIsIdempotent(t: map<Json, ScoresRow>, ss: seq<(Json, ScoresArg)>, now1: nat, now2: nat)
    ensures ApplyScoreSaves(ApplyScoreSaves(t, ss, now1), ss, now2) == ApplyScoreSaves(t, ss, now2)
  {
    var t1 := ApplyScoreSaves(t, ss, now1);
    var twice := ApplyScoreSaves(t1, ss, now2);
    var once := ApplyScoreSaves(t, ss, now2);
    forall id | true
      ensures id in twice <==> id in once
      ensures id in once ==> twice[id] == once[id]
    {
      ApplyScoreSavesAt(t, ss, now1, id);
      ApplyScoreSavesAt(t1, ss, now2, id);
      ApplyScoreSavesAt(t, ss, now2, id);
    }
    assert twice.Keys == once.Keys;
  }

  /** Saving the same test run twice leaves one row, with the later time. */
  lemma TestRunReplayIsIdempotent(t: map<Json, TestRunRow>, testId: Json, browser: Json, now1: nat, now2: nat)
    ensures UpsertTestRun(UpsertTestRun(t, testId, browser, now1), testId, browser, now2) == UpsertTestRun(t, testId, browser, now2)
  {
    assert UpsertTestRun(t, testId, browser, now1)[testId := TestRunRow(browser, now2)] == t[testId := TestRunRow(browser, now2)];
  }

  // ---------------------------------------------------------------------
  // Read-back shaping

  const CoachRecordKeys: set<string> :=
    {"test_id", "url", "group", "category_name", "adviceId", "score", "title", "description", "_time"}

  /** One `coach_advice` row as a flat record: `group_name` becomes `group`,
      `advice_id` becomes `adviceId`, `created_at` becomes `_time`. */
  function CoachRecord(k: AdviceKey, row: AdviceRow): (r: Record)
    ensures r.Keys == CoachRecordKeys
  {
    map["test_id" := k.testId, "url" := row.url, "group" := k.groupName,
        "category_name" := k.categoryName, "adviceId" := k.adviceId,
        "score" := row.score, "title" := row.title, "description" := row.description,
        "_time" := TimeJson(row.createdAt)]
  }

  /** The inverse renaming: the row a flat coach record came from. */
  function AdviceOfRecord(r: Record): Option<(AdviceKey, AdviceRow)>
  {
    if CoachRecordKeys <= r.Keys && TimeValue(r["_time"]).Some? then
      Some((AdviceKey(r["test_id"], r["group"], r["category_name"], r["adviceId"]),
            AdviceRow(r["url"], r["score"], r["title"], r["description"], TimeValue(r["_time"]).value)))
    else None
  }

  /** The renaming loses nothing: every row is recovered from its record. */
  lemma CoachRecordRoundTrip(k: AdviceKey, row: AdviceRow)
    ensures AdviceOfRecord(CoachRecord(k, row)) == Some((k, row))
  {
    var r := CoachRecord(k, row);
    assert r["_time"] == TimeJson(row.createdAt);
  }

  /** `rows.map(row => ({...}))`: one record per row, in row order. */
  function CoachRecords(rows: seq<(AdviceKey, AdviceRow)>): (rs: seq<Record>)
    ensures |rs| == |rows|
    ensures forall i :: 0 <= i < |rows| ==> rs[i] == CoachRecord(rows[i].0, rows[i].1)
  {
    seq(|rows|, i requires 0 <= i < |rows| => CoachRecord(rows[i].0, rows[i].1))
  }

  /** Every row is recovered, in order, from the records built from it. */
  lemma CoachRecordsRoundTrip(rows: seq<(AdviceKey, AdviceRow)>, i: nat)
    requires i < |rows|
    ensures AdviceOfRecord(CoachRecords(rows)[i]) == Some(rows[i])
  {
    CoachRecordRoundTrip(rows[i].0, rows[i].1);
  }

  /** Distinct rows give distinct records, each of which recovers its row. */
  lemma CoachRecordsInvert(rows: seq<(AdviceKey, AdviceRow)>)
    ensures forall i :: 0 <= i < |rows| ==> AdviceOfRecord(CoachRecords(rows)[i]) == Some(rows[i])
    ensures forall i, j :: 0 <= i < j < |rows| && rows[i] != rows[j] ==> CoachRecords(rows)[i] != CoachRecords(rows)[j]
  {
    forall i | 0 <= i < |rows|
      ensures AdviceOfRecord(CoachRecords(rows)[i]) == Some(rows[i])
    {
      CoachRecordsRoundTrip(rows, i);
    }
  }

  /** A `test_runs` row as the query returns it. */
  function TestRunRecord(testId: Json, row: TestRunRow): (r: Record)
    ensures r.Keys == {"test_id", "browser", "created_at"}
    ensures r["test_id"] == testId && r["browser"] == row.browser
    ensures TimeValue(r["created_at"]) == Some(row.createdAt)
  {
    map["test_id" := testId, "browser" := row.browser, "created_at" := TimeJson(row.createdAt)]
  }

  /** `rows.length > 0 ? rows[0] : null`; `None` is `null`. */
  function ShapeTestRun(rows: seq<Record>): (r: Option<Record>)
    ensures r.Some? <==> |rows| > 0
    ensures r.Some? ==> r.value == rows[0]
  {
    if |rows| > 0 then Some(rows[0]) else None
  }

  /** The object `getCoachScores` returns. */
  datatype ScoresView = ScoresView(performanceScore: Json, privacyScore: Json, bestPracticeScore: Json)

  const NotAvailable: Json := JStr("N/A")

  /** With no row every score is 'N/A'; otherwise each falsy stored score
      (NULL, 0) is 'N/A' and a truthy one is passed through. */
  function ShapeCoachScores(rows: seq<ScoresRow>): (v: ScoresView)
    ensures |rows| == 0 ==> v == ScoresView(NotAvailable, NotAvailable, NotAvailable)
    ensures |rows| > 0 ==>
      && v.performanceScore == (if Truthy(Some(rows[0].performance)) then rows[0].performance else NotAvailable)
      && v.privacyScore == (if Truthy(Some(rows[0].privacy)) then rows[0].privacy else NotAvailable)
      && v.bestPracticeScore == (if Truthy(Some(rows[0].bestpractice)) then rows[0].bestpractice else NotAvailable)
  {
    if |rows| > 0 then
      ScoresView(OrDefault(Some(rows[0].performance), NotAvailable),
                 OrDefault(Some(rows[0].privacy), NotAvailable),
                 OrDefault(Some(rows[0].bestpractice), NotAvailable))
    else ScoresView(NotAvailable, NotAvailable, NotAvailable)
  }

  /** Saving scores and reading them back: `(score || null) || 'N/A'` is
      `score || 'N/A'`, so each truthy score survives and every falsy one,
      0 included, reads back as 'N/A'. */
  lemma ScoresRoundTrip(t: map<Json, ScoresRow>, testId: Json, s: ScoresArg, now: nat)
    ensures ShapeCoachScores([UpsertScores(t, testId, s, now)[testId]]) ==
      ScoresView(OrDefault(s.performance, NotAvailable), OrDefault(s.privacy, NotAvailable),
                 OrDefault(s.bestpractice, NotAvailable))
  {
  }

  // ---------------------------------------------------------------------
  // The store

  class CoachStore {
    var advice: AdviceTable
    var testRuns: map<Json, TestRunRow>
    var scores: map<Json, ScoresRow>

    constructor ()
      ensures advice == map[] && testRuns == map[] && scores == map[]
    {
      advice := map[];
      testRuns := map[];
      scores := map[];
    }

    /** `saveCoachData(testRunId, url, groupName, categoryName, adviceId,
        score, title, description)`. */
    method SaveCoachData(testRunId: Json, url: Json, groupName: Json, categoryName: Json,
                         adviceId: Json, score: Json, title: Json, description: Json, now: nat)
      modifies this
      ensures advice == UpsertAdvice(old(advice),
        AdviceSave(testRunId, url, groupName, categoryName, adviceId, score, title, description), now)
      ensures testRuns == old(testRuns) && scores == old(scores)
    {
      var key := AdviceKey(testRunId, groupName, categoryName, adviceId);
      if key in advice {
        var row := advice[key];
        advice := advice[key := row.(score := score, title := title, description := description, createdAt := now)];
      } else {
        advice := advice[key := AdviceRow(url, score, title, description, now)];
      }
    }

    /** `saveTestRun(testRunId, browser)`. */
    method SaveTestRun(testRunId: Json, browser: Json, now: nat)
      modifies this
      ensures testRuns == UpsertTestRun(old(testRuns), testRunId, browser, now)
      ensures advice == old(advice) && scores == old(scores)
    {
      if testRunId in testRuns {
        testRuns := testRuns[testRunId := testRuns[testRunId].(browser := browser, createdAt := now)];
      } else {
        testRuns := testRuns[testRunId := TestRunRow(browser, now)];
      }
    }

    /** `saveCoachScores(testRunId, scores)`. */
    method SaveCoachScores(testRunId: Json, s: ScoresArg, now: nat)
      modifies this
      ensures scores == UpsertScores(old(scores), testRunId, s, now)
      ensures advice == old(advice) && testRuns == old(testRuns)
    {
      var performance := OrDefault(s.performance, JNull);
      var privacy := OrDefault(s.privacy, JNull);
      var bestpractice := OrDefault(s.bestpractice, JNull);
      scores := scores[testRunId := ScoresRow(performance, privacy, bestpractice, now)];
    }

    /** `SELECT ... FROM coach_advice WHERE test_id = ? ORDER BY created_at
        DESC`: every row of the test exactly once, newest first (rows with
        equal timestamps come in an unspecified order). */
    method SelectAdviceByTestId(testId: Json) returns (rows: seq<(AdviceKey, AdviceRow)>)
      ensures forall i :: 0 <= i < |rows| ==>
        rows[i].0 in advice && rows[i].0.testId == testId && advice[rows[i].0] == rows[i].1
      ensures forall k :: k in advice && k.testId == testId ==> exists i :: 0 <= i < |rows| && rows[i].0 == k
      ensures forall i, j :: 0 <= i < j < |rows| ==> rows[i].0 != rows[j].0
      ensures forall i, j :: 0 <= i < j < |rows| ==> rows[i].1.createdAt >= rows[j].1.createdAt
    {
      var remaining := set k | k in advice && k.testId == testId;
      rows := [];
      SelectStart(advice, testId);
      while remaining != {}
        invariant Selecting(advice, testId, remaining, rows)
        decreases |remaining|
      {
        LatestExists(advice, remaining);
        var k :| k in remaining && forall k' :: k' in remaining ==> advice[k'].createdAt <= advice[k].createdAt;
        SelectTurn(advice, testId, remaining, rows, k);
        rows := rows + [(k, advice[k])];
        remaining := remaining - {k};
      }
      SelectDone(advice, testId, rows);
    }

    /** `getCoachDataByTestId(testId)`: one renamed record per stored row of
        the test, no row twice, newest first. */
    method GetCoachDataByTestId(testId: Json) returns (records: seq<Record>)
      ensures forall i :: 0 <= i < |records| ==>
        && AdviceOfRecord(records[i]).Some?
        && AdviceOfRecord(records[i]).value.0 in advice
        && AdviceOfRecord(records[i]).value.0.testId == testId
        && advice[AdviceOfRecord(records[i]).value.0] == AdviceOfRecord(records[i]).value.1
      ensures forall k :: k in advice && k.testId == testId ==>
        exists i :: 0 <= i < |records| && records[i] == CoachRecord(k, advice[k])
      ensures forall i, j :: 0 <= i < j < |records| ==> records[i] != records[j]
      ensures forall i, j :: 0 <= i < j < |records| ==>
        AdviceOfRecord(records[i]).Some? && AdviceOfRecord(records[j]).Some? &&
        AdviceOfRecord(records[i]).value.1.createdAt >= AdviceOfRecord(records[j]).value.1.createdAt
    {
      var rows := SelectAdviceByTestId(testId);
      records := CoachRecords(rows);
      CoachRecordsInvert(rows);
    }

    /** `getTestRunById(testId)`: the run's record, or `null`. */
    method GetTestRunById(testId: Json) returns (run: Option<Record>)
      ensures run.Some? <==> testId in testRuns
      ensures run.Some? ==> run.value == TestRunRecord(testId, testRuns[testId])
    {
      var rows: seq<Record> := [];
      if testId in testRuns {
        var row := testRuns[testId];
        rows := [TestRunRecord(testId, row)];
      }
      run := ShapeTestRun(rows);
    }

    /** `getCoachScores(testId)`. */
    method GetCoachScores(testId: Json) returns (view: ScoresView)
      ensures testId !in scores ==> view == ScoresView(NotAvailable, NotAvailable, NotAvailable)
      ensures testId in scores ==> view == ShapeCoachScores([scores[testId]])
      ensures testId in scores ==>
        (view.performanceScore == NotAvailable || Truthy(Some(view.performanceScore))) &&
        (view.privacyScore == NotAvailable || Truthy(Some(view.privacyScore))) &&
        (view.bestPracticeScore == NotAvailable || Truthy(Some(view.bestPracticeScore)))
    {
      var rows: seq<ScoresRow> := [];
      if testId in scores {
        rows := [scores[testId]];
      }
      view := ShapeCoachScores(rows);
    }
  }

  /** The state of the selection loop: `rows` holds rows of the test, each
      once, newest first and none newer than a key still `remaining`; every
      other key of the test is still remaining. */
  predicate Selecting(t: AdviceTable, testId: Json, remaining: set<AdviceKey>, rows: seq<(AdviceKey, AdviceRow)>)
  {
    && SelectedFrom(t, testId, remaining, rows)
    && (forall k :: k in t && k.testId == testId ==> k in remaining || exists i :: 0 <= i < |rows| && rows[i].0 == k)
    && (forall i, j :: 0 <= i < j < |rows| ==> rows[i].0 != rows[j].0)
    && NewestFirst(t, remaining, rows)
  }

  predicate SelectedFrom(t: AdviceTable, testId: Json, remaining: set<AdviceKey>, rows: seq<(AdviceKey, AdviceRow)>)
  {
    && remaining <= t.Keys
    && (forall k :: k in remaining ==> k.testId == testId)
    && (forall i :: 0 <= i < |rows| ==>
          rows[i].0 in t && rows[i].0.testId == testId && t[rows[i].0] == rows[i].1 && rows[i].0 !in remaining)
  }

  predicate NewestFirst(t: AdviceTable, remaining: set<AdviceKey>, rows: seq<(AdviceKey, AdviceRow)>)
    requires remaining <= t.Keys
  {
    && (forall i, j :: 0 <= i < j < |rows| ==> rows[i].1.createdAt >= rows[j].1.createdAt)
    && (forall i, k :: 0 <= i < |rows| && k in remaining ==> t[k].createdAt <= rows[i].1.createdAt)
  }

  lemma SelectStart(t: AdviceTable, testId: Json)
    ensures Selecting(t, testId, set k | k in t && k.testId == testId, [])
  {
  }

  /** With nothing remaining, the selection is the test's rows, each once,
      newest first. */
  lemma SelectDone(t: AdviceTable, testId: Json, rows: seq<(AdviceKey, AdviceRow)>)
    requires Selecting(t, testId, {}, rows)
    ensures forall i :: 0 <= i < |rows| ==> rows[i].0 in t && rows[i].0.testId == testId && t[rows[i].0] == rows[i].1
    ensures forall k :: k in t && k.testId == testId ==> exists i :: 0 <= i < |rows| && rows[i].0 == k
    ensures forall i, j :: 0 <= i < j < |rows| ==> rows[i].0 != rows[j].0
    ensures forall i, j :: 0 <= i < j < |rows| ==> rows[i].1.createdAt >= rows[j].1.createdAt
  {
  }

  /** Moving a newest remaining key to the end of the selection keeps the
      loop's state. */
  lemma SelectTurn(t: AdviceTable, testId: Json, remaining: set<AdviceKey>, rows: seq<(AdviceKey, AdviceRow)>, k: AdviceKey)
    requires Selecting(t, testId, remaining, rows)
    requires k in remaining && forall k' :: k' in remaining ==> t[k'].createdAt <= t[k].createdAt
    ensures Selecting(t, testId, remaining - {k}, rows + [(k, t[k])])
  {
    var rows' := rows + [(k, t[k])];
    assert forall i :: 0 <= i < |rows| ==> rows'[i] == rows[i];
    assert rows'[|rows|].0 == k;
    SelectedFromTurn(t, testId, remaining, rows, k);
    NewestFirstTurn(t, remaining, rows, k);
  }

  lemma SelectedFromTurn(t: AdviceTable, testId: Json, remaining: set<AdviceKey>, rows: seq<(AdviceKey, AdviceRow)>, k: AdviceKey)
    requires SelectedFrom(t, testId, remaining, rows) && k in remaining
    ensures SelectedFrom(t, testId, remaining - {k}, rows + [(k, t[k])])
  {
    var rows' := rows + [(k, t[k])];
    assert forall i :: 0 <= i < |rows| ==> rows'[i] == rows[i];
  }

  lemma NewestFirstTurn(t: AdviceTable, remaining: set<AdviceKey>, rows: seq<(AdviceKey, AdviceRow)>, k: AdviceKey)
    requires remaining <= t.Keys && NewestFirst(t, remaining, rows)
    requires k in remaining && forall k' :: k' in remaining ==> t[k'].createdAt <= t[k].createdAt
    ensures NewestFirst(t, remaining - {k}, rows + [(k, t[k])])
  {
    var rows' := rows + [(k, t[k])];
    assert forall i :: 0 <= i < |rows| ==> rows'[i] == rows[i];
  }

  /** A non-empty set of rows has a newest member. */
  lemma LatestExists(t: AdviceTable, s: set<AdviceKey>)
    requires s != {} && s <= t.Keys
    ensures exists k :: k in s && forall k' :: k' in s ==> t[k'].createdAt <= t[k].createdAt
  {
    var x :| x in s;
    if s != {x} {
      LatestExists(t, s - {x});
      var y :| y in s - {x} && forall k' :: k' in s - {x} ==> t[k'].createdAt <= t[y].createdAt;
      if t[x].createdAt > t[y].createdAt {
        assert forall k' :: k' in s ==> t[k'].createdAt <= t[x].createdAt;
      } else {
        assert forall k' :: k' in s ==> t[k'].createdAt <= t[y].createdAt;
      }
    } else {
      assert forall k' :: k' in s ==> k' == x;
    }
  }
}
